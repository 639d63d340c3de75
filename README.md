# Synaptic trading signals — a verified Dafny model

This project models the core of the Synaptic trading-signal service and its
SMA-crossover backtester, and proves properties of that model.

- **Indicators** (`indicators.dfy`) is the indicator engine. It covers the simple
  moving average with its neutral fallbacks and Wilder-smoothed RSI. It also covers
  the fixed MA(20/50) + RSI(14) rule table that turns a price window into a
  `(trend, decision, rsi)` signal. The loops of `calculate_sma` and
  `calculate_rsi` are methods. Each is proved equal to a recursive specification
  function, and the bounds and neutral cases are proved about those functions.
- **Models** (`models.dfy`) holds the per-symbol rolling state. `SymbolState` is a
  class with a bounded FIFO window (a deque with `maxlen`) and the three last
  published signal fields. It also defines the `Literal` domains of the signal
  response as datatypes.
- **Service** (`service.dfy`) is the sequential part of the server.
  - Startup builds the fixed registry `XYZ`, `ABC`, `DEF`.
  - Each tick pushes a price and recomputes the symbol's signal.
  - A signal query upper-cases its key, then returns the stored fields or not-found.
  - The decision stream sends the current decision, then each change.

  `SignalStore` is the `GLOBAL_STATE` dictionary. Its key set is fixed when it is
  built. The store invariant says the published signal of every symbol is the
  rule-table signal of its current window.
- **Backtest** (`backtest.dfy`) is the SMA-crossover backtester.
  - The pure functions over a `Book` value specify one step each: fill, end-of-day
    check, crossover, bar, finalize.
  - The `SmaCrossoverBacktester` class mirrors the Python object field by field.
    Each of its methods is proved to move its `Snapshot()` exactly as the matching
    function does.
  - The lemmas prove the position, ledger and equity-curve invariants, and the
    drawdown characterisation.
- **Outcomes** (`outcomes.dfy`) holds `Option` and `Result`.

Prices are `real`. A `ValueError` raised by the source becomes an `Err` value, and
an absent value (`None`) becomes `Option`.

Two facts about the code shape the model:

- An SMA or RSI period of zero or less gives `Err` on every call, because
  `indicators.py` raises `ValueError` at lines 31-32 and 64-65.
- The consumer writes the three signal fields one after another (main.py:38-40),
  with no `await` between them. So no reader runs in between, and a signal is
  observed only after all three fields are written.

In the backtester, the end-of-day flatten fills at the *current* bar's close
(backtest_runner.py:135). The comment on line 132 says "previous bar's close",
but `close_price` is the argument passed in from `on_bar` for the new bar. The
model follows the code.

## Model

| member | source | states |
|---|---|---|
| Models.LastN | models.py:18 | What a deque with `maxlen = n` retains: `min(|s|, n)` elements, which are exactly the last ones of `s`, in order. |
| Models.PushedIsLastN | models.py:18-24 | Pushing any sequence of prices, one by one, into a window of at most `n` leaves the last `n` of the old window followed by the pushed prices. |
| Models.Pushed | models.py:23-24 | The window after `add_price` is applied to every price of a list, oldest first: each push appends to the window and trims it to its last `n`. |
| Models.WindowAfterPushes | models.py:18-24 | After k pushes into a fresh window, it holds the last `min(k, n)` pushed prices in chronological order. |
| Models.OldestEvicted | models.py:18-24 | Pushing `n + 1` prices into a fresh window of capacity `n` drops exactly the oldest one. |
| Models.SymbolState.constructor | models.py:16-21 | A fresh state has the given capacity, an empty window and the neutral signal FLAT / HOLD / 50.0. |
| Models.SymbolState.AddPrice | models.py:23-24 | The window becomes the last `maxSize` of old window + price. It stays within capacity. Its last element is the price. When not full it appends and keeps the rest in order. When full it drops exactly the oldest. The signal fields are unchanged. |
| Indicators.Sum | indicators.py:43-46 | A sum of non-negative values is non-negative. |
| Indicators.SumPositive | indicators.py:78-79 | A non-empty sum of positive values is positive. |
| Indicators.SumZero | indicators.py:78-79 | A sum of zeros is zero. |
| Indicators.Sma | indicators.py:31-47 | The SMA is an error exactly when `period <= 0`. It is 0.0 for an empty window and the last price for a window shorter than the period. |
| Indicators.SmaIgnoresOlderPrices | indicators.py:41-47 | With at least `period` recent prices, anything before them has no effect on the SMA. |
| Indicators.CalculateSma | indicators.py:31-47 | The accumulator loop from index `n - period` returns exactly `Sma`, errors and fallbacks included. |
| Indicators.Deltas | indicators.py:73 | A window of n prices has n - 1 consecutive differences (none when empty). |
| Indicators.Gains | indicators.py:76 | One gain per delta, each non-negative. |
| Indicators.Losses | indicators.py:77 | One loss per delta, each non-negative. |
| Indicators.PrefixOfMap | indicators.py:76-77 | The gains (losses) of the first k deltas are the first k gains (losses) of all deltas. |
| Indicators.WilderAverage | indicators.py:75-86 | Seeding and smoothing keep an average of non-negative values non-negative. |
| Indicators.Smooth | indicators.py:85-86 | One Wilder step from a non-negative average with a non-negative value stays non-negative. |
| Indicators.WilderAverageStep | indicators.py:82-86 | The average over one more delta is one smoothing step applied to the previous average. |
| Indicators.SmoothingStep | indicators.py:85-86 | A smoothing step keeps positive averages positive and zero averages zero. |
| Indicators.WilderAveragePositive | indicators.py:75-86 | Strictly positive inputs give a strictly positive Wilder average. |
| Indicators.WilderAverageZero | indicators.py:75-86 | All-zero inputs give a zero Wilder average. |
| Indicators.Clamp | indicators.py:100-104 | The result lies in [0, 100], and values already in range are unchanged. |
| Indicators.Rsi | indicators.py:64-105 | The RSI is an error exactly when `period <= 0`. It is always in [0, 100]. It is 50.0 with fewer than `period + 1` prices. |
| Indicators.RawRsiInRange | indicators.py:88-98 | With non-negative averages the RSI formula, including its zero-average cases, is in [0, 100]. |
| Indicators.RawRsi | indicators.py:88-98 | RSI from the two averages. A zero loss average gives 100, or 50 when the gain average is zero too. A zero gain average gives 0. Otherwise it is 100 - 100 / (1 + gain/loss). |
| Indicators.RsiNeedsNoClamp | indicators.py:75-105 | Both averages stay non-negative through seeding and smoothing. The clamp never changes the RSI over the reals. |
| Indicators.RsiOfSeedWindow | indicators.py:75-98 | With exactly `period + 1` prices, the RSI is the formula applied to the simple means of the gains and of the losses. |
| Indicators.ConstantSeriesRsi | indicators.py:89-91 | A constant series has RSI 50.0 at any length. |
| Indicators.IncreasingSeriesRsi | indicators.py:89-93 | A strictly increasing series with at least `period + 1` prices has RSI 100.0. |
| Indicators.CalculateRsi | indicators.py:64-105 | The seed-then-smooth loop returns exactly `Rsi`, errors and neutral cases included. |
| Indicators.Classify | indicators.py:120-130 | The rule table, as both directions of each condition. UP / DOWN / FLAT follow the sign of short - long MA. BUY holds iff UP and rsi < 30. SELL holds iff DOWN and rsi > 70. Otherwise HOLD. The rsi passes through. |
| Indicators.TrendAndDecisionRule | indicators.py:116-132 | A window's signal carries RSI(14) of the same window, within [0, 100]. Its trend and decision follow the rule table on SMA(20) and SMA(50) of that window. |
| Indicators.TrendAndDecision | indicators.py:108-132 | The signal of a window: the rule table applied to SMA(20), SMA(50) and RSI(14) of that window. |
| Indicators.ShortWindowIsFlat | indicators.py:117-123 | Any window of fewer than 20 prices gives FLAT / HOLD. |
| Indicators.EmptyWindowIsNeutral | indicators.py:116-132 | The empty window's signal is the neutral FLAT / HOLD / 50.0 a fresh state starts with. |
| Indicators.DetermineTrendAndDecision | indicators.py:108-132 | Feeding the two loop implementations into the rule table yields exactly the specified signal of the window. |
| Service.Upper | main.py:65 | The result has the same length. Each lower-case ASCII letter becomes its upper-case partner (`'a'..'z'` to `'A'..'Z'`, same offset), and every other character is kept. |
| Service.LowerCaseKeysAreTracked | main.py:65-68 | The lower-case queries "xyz", "abc" and "def" upper-case to the tracked keys XYZ, ABC and DEF. |
| Service.UpperIdempotent | main.py:71 | The upper-cased symbol returned by a query looks itself up again. |
| Service.FeedEnds | main.py:97-108 | The stream starts with the current decision and ends with the latest decision read. |
| Service.Feed | main.py:97-108 | The decisions sent: the first read, then each later read that differs from the last one sent. The stream is never empty. |
| Service.FeedHasNoRepeats | main.py:102-108 | Consecutive stream messages never carry the same decision. |
| Service.FeedCountsChanges | main.py:97-108 | The stream has one message for the snapshot plus exactly one per change between consecutive reads. |
| Service.FeedIsSubsequence | main.py:97-108 | Every message of the stream is one of the reads, and the messages keep the order of the reads. |
| Service.DecisionStream | main.py:97-108 | The subscriber loop sends exactly the feed's decisions, in order, each tagged with the given key: the first decision, then each later read that differs from the last one sent. |
| Service.Refresh | main.py:34-40 | The tick's price is pushed into the window (the last `maxSize` of old window + price). The three published fields then hold the rule-table signal of the new window. The window stays within capacity. |
| Service.SignalStore.constructor | main.py:14-17 | The registry holds exactly XYZ, ABC and DEF. Each has a fresh, distinct state with capacity 200, an empty window and the neutral signal. The store invariant holds. |
| Service.SignalStore.Ingest | main.py:32-40 | A tracked tick pushes its price into its symbol's window. That symbol then publishes the rule-table signal of the new window. Every other state is unchanged, and an untracked tick changes nothing. |
| Service.SignalStore.Consume | main.py:31-40 | After a finite run of ticks, each symbol's window is the last 200 of its old window followed by its own prices in arrival order. Every published signal still matches its window. |
| Service.SignalStore.GetSignal | main.py:65-75 | Not-found exactly when the upper-cased key is untracked. Otherwise it returns the stored fields unchanged with the upper-cased symbol. These are the rule-table signal and RSI(14) of the symbol's window. |
| Service.SignalStore.StreamDecisions | main.py:85-108 | An untracked symbol is refused. Otherwise the messages are the current decision followed by each later read that differs from the last one sent, all tagged with the upper-cased symbol. |
| Backtest.NewConfig | backtest_runner.py:76-82 | Construction succeeds exactly when 0 < fast < slow. The fee rate is `fee_bps / 10000`. |
| Backtest.SmaCrossoverBacktester.Create | backtest_runner.py:67-96 | The validating constructor refuses bad SMA periods. Otherwise it returns a fresh backtester with empty state that satisfies the invariant. |
| Backtest.SmaCrossoverBacktester.constructor | backtest_runner.py:78-96 | Flat, no cash, no trades, empty curve and buffers, no last close, no current day. |
| Backtest.WindowSma | backtest_runner.py:98-101 | The SMA is absent exactly while the buffer is shorter than the period. Otherwise it equals the signal engine's SMA of the buffer. |
| Backtest.Fee | backtest_runner.py:103-105 | The fee is never negative for a non-negative rate. It is zero on a zero notional, and equal for a notional and its negation. |
| Backtest.MarkToMarket | backtest_runner.py:123-124 | A flat book is worth its cash. |
| Backtest.ExecutedKeepsLedger | backtest_runner.py:107-120 | A fill appends exactly one trade. A buy fills one tick above the price and a sell one tick below. The fee is charged on the fill notional. Position and cash move by exactly that trade's effect, so the ledger stays exact. |
| Backtest.Executed | backtest_runner.py:107-120 | One fill: the price moved one tick against the trader, position changed by the quantity, cash changed by the notional less the fee, one trade appended, and the last close recorded. |
| Backtest.SmaCrossoverBacktester.Exec | backtest_runner.py:107-120 | The object's state moves exactly as the fill specification. |
| Backtest.EodCheckedKeepsShape | backtest_runner.py:126-136 | The day check keeps the ledger and the long-only shape and records the bar's day. A new day with a known last close leaves no position. |
| Backtest.EodChecked | backtest_runner.py:126-136 | The first bar only records its day. A bar on a new day first closes any open position at this bar's close, stamped at midnight, and then records the day. A same-day bar changes nothing. |
| Backtest.EodFlattensOnDayChange | backtest_runner.py:126-136 | The first bar only records its day, and a same-day bar changes nothing. A day change with an open position adds one closing trade for the whole position, stamped at midnight of the new day. |
| Backtest.SmaCrossoverBacktester.MaybeEodFlat | backtest_runner.py:126-136 | The object's state moves exactly as the end-of-day specification. |
| Backtest.CrossedKeepsShape | backtest_runner.py:146-160 | The crossover keeps the ledger and the long-only shape. It makes no trade while the slow buffer is short. |
| Backtest.Crossed | backtest_runner.py:146-160 | With both SMAs available: buy `size` from flat or short when fast > slow, sell the whole long when fast < slow, otherwise do nothing. |
| Backtest.AfterBarSound | backtest_runner.py:138-165 | Each bar keeps the invariant: the ledger, position 0 or `size`, equal buffers, and a last equity point equal to cash + position × last close. It appends exactly one equity point, valued at cash + position × close. |
| Backtest.AfterBar | backtest_runner.py:138-165 | One bar: append the close to both buffers, run the day check, apply the crossover rule, append one equity point at this close, and record the close. |
| Backtest.SmaCrossoverBacktester.OnBar | backtest_runner.py:138-165 | The object's state moves exactly as the bar specification and keeps the invariant. |
| Backtest.FinalizedFlat | backtest_runner.py:167-174 | Finalizing leaves the book flat and sound. The last equity point equals the cash, which equals the realised cash flow of all trades. The wall-clock fallback never affects the result. |
| Backtest.Finalized | backtest_runner.py:167-174 | An open position with a known last close is closed at that close, stamped with the last equity point's time or the clock, and one more equity point is appended. Otherwise nothing changes. |
| Backtest.SmaCrossoverBacktester.Finalize | backtest_runner.py:167-174 | The object ends flat and sound and moves exactly as the finalize specification. |
| Backtest.ReplaySound | backtest_runner.py:138-165 | Any sequence of bars leaves a sound book with one equity point per bar and every close buffered. |
| Backtest.Replay | backtest_runner.py:317-318 | A fresh backtester fed the bars in order through `on_bar`. |
| Backtest.NoTradeBeforeSlowSma | backtest_runner.py:146-149 | Fewer bars than the slow period produce no trade at all, not even an end-of-day one. |
| Backtest.SmaCrossoverBacktester.TotalPnl | backtest_runner.py:177-182 | The total PnL is 0 for an empty curve. On a sound book it is the mark-to-market value at the last close, and for a flat book it is the cash. |
| Backtest.PeakIsMaximum | backtest_runner.py:185-189 | The running peak bounds every value and is reached by one. |
| Backtest.DrawdownIsLargestDrop | backtest_runner.py:184-193 | The drawdown is non-negative. It bounds every drop `eq[i] - eq[j]` with i ≤ j, and some such drop reaches it. |
| Backtest.NonDecreasingHasNoDrawdown | backtest_runner.py:184-193 | A curve that never falls has drawdown 0. |
| Backtest.SmaCrossoverBacktester.MaxDrawdown | backtest_runner.py:184-193 | The running-peak loop returns exactly the drawdown of the equity values, which is non-negative. |

## Left out

- The asyncio consumer task, its startup, shutdown and cancellation (main.py:23-55). These are event-loop concurrency. `SignalStore.Consume` models a finite stretch of the feed processed in order.
- HTTP and WebSocket transport: JSON encoding, `accept`, the 404 response and close code 1008, and `WebSocketDisconnect`. Both refusals are the `NotTracked` error.
- Service.SignalStore.StreamDecisions: the endless polling loop and its 0.1 s sleep are modelled as a finite list `laterReads` of the decisions seen at each poll. What another task writes between polls is not derived here.
- Service.Upper: only ASCII letters are upper-cased. Python's full Unicode case mapping (for example 'ß' to "SS") is not modelled.
- Models.SymbolState: `max_size=None` (an unbounded deque) is not modelled. The capacity is a `nat`, and the service always uses 200.
- The random tick generator in stream_stub.py is an external producer. The ticks it would produce are a parameter.
- `Tick.ts` is carried but unused, as in the source.
- Floating point: all arithmetic is over the reals. Rounding, NaN, infinities and the bit-identical replay concern are not modelled. Determinism of the model's functions is automatic.
- pydantic validation of `SignalResponse` is not modelled. Its `Literal` domains are the `Trend` and `Decision` datatypes.
- Backtest timestamps: a tz-aware `datetime` is an `Instant(day, sinceMidnight)`. `ts.date()` is `day`, and `ts.replace(hour=0, …)` is `Instant(day, 0)`. Time-zone conversion is not modelled.
- Backtest.SmaCrossoverBacktester.Finalize: `datetime.now(tz)` is the parameter `now`. `FinalizedFlat` shows it never affects a sound book.
- Backtest.WindowSma requires a positive period. In the source a period of 0 divides by zero, and a negative period skips the `None` branch and returns a meaningless value (`sum(buf[-period:]) / period`). The constructor rules out both for the two periods, so neither case is reached.
- CSV ingestion, timestamp parsing, `save_equity_curve`, the `run_backtest` printing and `daily_sharpe` (backtest_runner.py:195-338) are file I/O, library parsing and `sqrt`-based statistics.
- nautilus_runner.py wraps an external library. perf_load_test.py, perf_asgi_load_test.py and locustfile.py are network load harnesses. None of them is part of this model.
