# A verified model of an AI-assisted futures trading bot

The system receives TradingView alerts on a Flask webhook. For each alert it
gathers market data from the Bybit v5 REST API, asks Claude whether to act,
and then opens, reverses or closes a linear-futures position. A background
monitor closes positions that reach their take-profit or stop-loss price.
This project models the decision-making core of that system in Dafny and
proves properties of the model.

| Dafny module | models | form |
|---|---|---|
| `Indicators` | `technical_indicators.py`: candles sorted by timestamp, Wilder RSI(14) and ATR(14), and the indicator columns copied back onto the candles | the column computations are methods with loops; they are proved against recurrence functions |
| `Exchange` | `bybit_client.py`: `safe_float_conversion`, the shaping of position and ticker replies, the request limits, the sorted query string, the signed payload and the three-attempt retry policy | functions; the retry loop is a method |
| `Market` | `data_collector.py`: kline rows becoming candles, the latest-candle selection, `get_market_data` and `format_trading_summary` | functions, and methods where the source loops |
| `Advisor` | `claude_client.py`: extracting JSON from the reply, normalising the answer, the fallback verdicts, the thinking budget, and the response text with its retries | functions, and methods where the source loops |
| `Ledger` | `position_manager.py`: the trade-log dict with its insertion order, its save/load round trip, take-profit/stop-loss prices, PnL, and the open, close and trend-touch handlers | a `PositionManager` class whose methods are proved equal to specification functions |
| `Decisions` | `decision_manager.py`: per-symbol clients and the three handlers that forward to the execution server | a `DecisionManager` class |
| `Monitor` | `position_monitor.py`: the cached TP/SL watch per symbol, one check and one monitor cycle | a `PositionMonitor` class |
| `Webhook` | `webhook_server.py`: payload validation and routing | a function |

`Wrappers` (Option and Result), `Json` (JSON values) and `Text` (ASCII case
mapping, strip, find, split, decimal rendering) are helper modules.

Modelling conventions:

- **Exceptions.** A Python exception is the `Raised(message)` case of a
  `Result`.
- **Service calls.** Every call into Bybit, Claude, the execution server, the
  clock or the uuid generator is an input. Handlers take an oracle record
  holding each call's outcome. They return the sequence of calls they made
  alongside their reply, so "no order was sent" can be stated.
- **Prices.** Prices are `real`. A missing indicator value (NaN in pandas) is
  `None`.
- **Trade-log order.** The trade-log dict's insertion order is kept
  explicitly (`Ledger.Ledger.order`), because `get_active_trade_log` returns
  the first open log in that order.

Two defects in the source are modelled as written. For each one the model
also has a corrected definition:

- **`get_market_data` always raises.** It calls `.get` on the float that
  `get_current_price` returns, so it never returns market data.
  - As written: `Market.GetMarketData`, `Ledger.OpenAsCodedRaises` and
    `Decisions.OpenAsCodedSendsNothing`.
  - Corrected: `Market.MarketDataIntended` and
    `Ledger.OpenIntendedConsultsAdvisor`.
- **`handle_trend_touch` passes one argument too many.** It calls
  `verify_trend_touch` with four arguments, but the method takes three.
  - As written: `Ledger.TrendAsCodedRaises` and
    `Decisions.TrendTouchAsCodedSendsNothing`.
  - Corrected: the handlers take the verdict the advisor returns, in
    `Ledger.TrendApprovedCloses` and `Ledger.TrendMaintainSendsNoClose`.

A third defect, in the indicator computation, is under "## Findings".

## Model

| member | source | states |
|---|---|---|
| Indicators.SortedOrder | technical_indicators.py:101 | the sort order is a permutation of the row positions, and the timestamps are ascending along it |
| Indicators.Sorted | technical_indicators.py:101 | the sorted frame has the input's length, and row k is the input row at position k of the sort order |
| Indicators.SortedIsAscending | technical_indicators.py:101 | after sorting, timestamps are non-decreasing |
| Indicators.AscendingSortIsIdentity | technical_indicators.py:101 | sorting candles that are already ascending leaves them unchanged |
| Indicators.SortIdxPermutes | technical_indicators.py:101 | the insertion sort over indices yields a permutation of 0..k-1 |
| Indicators.SortIdxSorted | technical_indicators.py:101 | the insertion sort over indices orders them by timestamp |
| Indicators.Gain | technical_indicators.py:125-131 | the gain is max(close change, 0): never negative, and zero unless the close rose |
| Indicators.Loss | technical_indicators.py:125-131 | the loss is max(−close change, 0): never negative, and zero unless the close fell |
| Indicators.RsiOf | technical_indicators.py:144-148 | RSI lies in [0, 100], and it is exactly 100 when the average loss is zero |
| Indicators.TrueRange | technical_indicators.py:168-174 | the true range is high−low on row 0; later rows take the largest of high−low, \|high−prev close\| and \|low−prev close\| |
| Indicators.RsiColumn | technical_indicators.py:134-161 | the loop fills every row with the RSI defined by the Wilder recurrence, seeded at row 13 from the mean of gains 1..13 |
| Indicators.AtrColumn | technical_indicators.py:177-188 | the loop fills every row with the ATR recurrence, seeded at row 13 from the mean of true ranges 0..13 |
| Indicators.ApplyIndicators | technical_indicators.py:31-73 | row k of the result is the k-th candle in timestamp order, carrying that row's RSI and ATR; nothing else is changed |
| Indicators.AnnotateRows | technical_indicators.py:57-70 | each output row is the sorted row with its RSI and ATR attached |
| Indicators.CopyOut | technical_indicators.py:57-70 | each output candle keeps its OHLCV and takes the computed RSI and ATR |
| Indicators.ShortSeriesHasNoIndicators | technical_indicators.py:117-122 | with fewer than 14 candles, no row has an RSI or an ATR |
| Indicators.IndicatorsDefinedFrom13 | technical_indicators.py:134-188 | with at least 14 candles, a row has RSI and ATR exactly when its position is at least 13, and each RSI is in [0, 100] |
| Indicators.SeedRsi | technical_indicators.py:139-148 | the first RSI is 100 when the seed loss is zero, and otherwise 100 − 100/(1 + seed gain/seed loss) |
| Indicators.NoLossesMeansRsi100 | technical_indicators.py:144-161 | on closes that never fall, the average loss stays 0 and every defined RSI is 100 |
| Indicators.NoLookAhead | technical_indicators.py:134-188 | row i's RSI and ATR depend only on candles 0..i |
| Indicators.ApplyIndicatorsAsWritten | technical_indicators.py:101-188 | as written, row k receives the indicator values computed for position SortedOrder[k] |
| Indicators.AsWrittenAgreesOnAscendingInput | technical_indicators.py:101-188 | on ascending input the as-written assignment matches the intended one |
| Indicators.RotatedOrder | technical_indicators.py:101 | for timestamps 1..13 followed by 0, the last row sorts first |
| Indicators.RotatedSeriesLosesNewestRsi | technical_indicators.py:146-148 | on such a series the newest candle gets no RSI as written, although the intended result gives it one |
| Indicators.RotatedSeriesExample | technical_indicators.py:101 | a concrete series with this shape exists |
| Exchange.SafeFloat | bybit_client.py:273-290 | None and "" give 0.0; a number is kept; a string gives its parse, or 0.0 if it does not parse |
| Exchange.SafeFloatOfUnparsable | bybit_client.py:284-290 | a string that does not parse converts to 0.0 |
| Exchange.ShapeEntry | bybit_client.py:103-113 | each field is the safe conversion of the reply field or its default; the position type is "long" exactly when side is "Buy" |
| Exchange.ActivePositions | bybit_client.py:96-99 | the filter keeps precisely the entries whose size is positive, and raises when an entry is not a dict |
| Exchange.FirstActive | bybit_client.py:101-102 | the chosen position is the first entry with a positive size |
| Exchange.ShapePositions | bybit_client.py:78-122 | a non-dict reply raises; a retCode other than 0 gives no position; a position implies retCode 0 |
| Exchange.ShapePositionsOfList | bybit_client.py:96-122 | for a list reply, there is a position exactly when some entry has a positive size, and it is the first such entry, shaped |
| Exchange.ShapePrice | bybit_client.py:124-146 | the price is the safe conversion of the first ticker's lastPrice; a bad retCode or an empty list raises |
| Exchange.KlineLimit | bybit_client.py:53 | the kline limit is min(limit, 1000) |
| Exchange.OrderBookLimit | bybit_client.py:73 | the order-book limit is min(limit, 100) |
| Exchange.SortByKey | bybit_client.py:169 | the parameters are permuted into ascending key order |
| Exchange.InsertByKey | bybit_client.py:169 | inserting a pair into key-sorted parameters keeps them sorted and adds exactly that pair |
| Exchange.QueryString | bybit_client.py:169 | the query string joins a key-sorted permutation of the parameters |
| Exchange.TwoParamsQuery | bybit_client.py:169 | the query string of two parameters does not depend on the order they are given in |
| Exchange.PositionQueryString | bybit_client.py:78-95 | the position query is "category=linear&symbol=" + symbol, whichever order the parameters are given in |
| Exchange.SignString | bybit_client.py:166-172 | the signed text is, segment by segment, the decimal timestamp, the API key, the recv window "5000" and the payload, with those exact lengths |
| Exchange.SignStringTimestampReadsBack | bybit_client.py:166-172 | the signed text opens with digits only, and that prefix reads back as the timestamp sent in the header |
| Exchange.SignStringSeparatesPayloads | bybit_client.py:172 | different payloads with the same timestamp and key give different signed texts |
| Exchange.SendRequest | bybit_client.py:187-210 | the retry loop returns what the retry policy decides, after one sleep before each retry |
| Exchange.RetryPolicy | bybit_client.py:187-210 | there are at most 3 attempts; the first successful reply is returned; the call fails only after 3 failures, with the last error |
| Exchange.GetPositions | bybit_client.py:78-122 | a failed request raises its error; otherwise the reply is shaped into a position |
| Exchange.GetCurrentPrice | bybit_client.py:124-146 | a failed request raises its error; otherwise the reply is shaped into a price |
| Market.RowToChart | data_collector.py:164-180 | a long row (a list, or a string read one character per field) converts exactly when every field does; the timestamp is ms/1000; the fields are open, high, low, close and volume; no indicators are set |
| Market.RowStepMeaning | data_collector.py:162-180 | a list, string or dict shorter than six is skipped; a long list or string yields a candle exactly when it converts (otherwise it raises); a long dict raises KeyError at `row[0]`; any other value raises TypeError at `len` |
| Market.FromNewest | data_collector.py:162-182 | walking the rows in reverse yields, when it does not raise, one candle per long row |
| Market.FromNewestRaises | data_collector.py:162-182 | the walk raises exactly when some row raises |
| Market.FromNewestOrigin | data_collector.py:162-182 | candle k is the conversion of the k-th long row counted from the end |
| Market.LongIndicesExact | data_collector.py:162-164 | the listed positions hold long rows, newest first in strictly descending order (each row once), and none is missing |
| Market.CharRowsGiveNoCandles | data_collector.py:162-164 | walking a string visits one-character strings, which are all skipped |
| Market.NewestFirstGivesAscending | data_collector.py:162-182 | rows newest first become candles in ascending time order |
| Market.KlineCandles | data_collector.py:147-184 | a reply that is not a dict raises; a bad retCode gives no candles; a truthy list is walked in reverse, a truthy string gives no candles, and a number or boolean raises at `reversed` |
| Market.ProcessKlineData | data_collector.py:147-184 | the loop builds exactly the candles of KlineCandles |
| Market.KlineFailureGivesNoCandles | data_collector.py:159 | a bad retCode or an empty list gives no candles |
| Market.MaxIndex | data_collector.py:111-112 | the chosen index has a maximal timestamp, and every earlier index has a strictly smaller one |
| Market.LatestCandle | data_collector.py:111-112 | `max` raises on an empty list; otherwise it returns a candle with the maximal timestamp, the first such |
| Market.LatestOfStrictlyAscending | data_collector.py:111-112 | on strictly ascending timestamps the latest candle is the last one |
| Market.LatestIndicator | data_collector.py:111-136 | the indicator exists exactly when both lists are non-empty, and it holds each timeframe's latest candle |
| Market.GetMarketData | data_collector.py:87-90 | as coded, the call always raises, and a price lookup's own error propagates |
| Market.MarketDataIntended | data_collector.py:76-145 | corrected: the data exists exactly when the price, the order book and both candle lists are available; it then carries that price, the book's result and each timeframe's latest candle |
| Market.CandleDictRoundTrip | data_collector.py:197-226 | the summary dict of a candle converts back to the same candle |
| Market.IndicatorText | data_collector.py:274-277 | a missing indicator prints as "N/A", and a present one in two-decimal format |
| Market.CandleDicts | data_collector.py:197-226 | each list entry is the dict of the candle at the same index |
| Market.FormatTradingSummary | data_collector.py:186-290 | the summary fails exactly when a candle list is empty; it takes its "current" fields from the last candle of each list |
| Advisor.ExtractJsonText | claude_client.py:130-134 | text inside a ```json fence, or else a plain fence, is taken and stripped, and no fence is left in it; without a fence the reply is used as it is |
| Advisor.JsonFenceIsFence | claude_client.py:131-133 | a ```json fence is also a plain fence |
| Advisor.NormalizeAnswer | claude_client.py:143-147 | the answer becomes "yes" exactly when its lower-case form contains "yes", and "no" otherwise |
| Advisor.ParsedVerdict | claude_client.py:137-150 | the parse succeeds exactly when the JSON is an object with Answer (a string) and Reason; only Answer is normalised |
| Advisor.FallbackVerdict | claude_client.py:152-160 | an unparsable reply gives yes/"yes" when it mentions "yes", and no/"Failed to parse response" otherwise |
| Advisor.VerdictOf | claude_client.py:128-160 | the verdict is the parsed one when parsing succeeds, and the fallback otherwise |
| Advisor.Verify | claude_client.py:57-164 | a failed request gives no/"Error occurred: …"; otherwise the verdict of the reply |
| Advisor.AnswerIsYesOrNo | claude_client.py:143-164 | every verdict has an Answer, and it is "yes" or "no" |
| Advisor.VerdictHasReason | claude_client.py:140-164 | every verdict has a Reason |
| Advisor.FencedReply | claude_client.py:130-150 | for a fenced object reply, the answer is "yes" exactly when it contains "yes", and the reason is kept |
| Advisor.ThinkingBudget | claude_client.py:306 | the budget is min(16000, max_tokens − 4000) |
| Advisor.DefaultBudget | claude_client.py:306 | the default max_tokens gives the full 16000 budget |
| Advisor.CollectText | claude_client.py:326-334 | the loop concatenates the text of every text-bearing block in order |
| Advisor.ContentTextAppend | claude_client.py:326-334 | the text of concatenated blocks is the concatenation of their texts |
| Advisor.GenerateResponse | claude_client.py:293-378 | the text is the response policy's; there are one to four calls, with a sleep before each retry |
| Advisor.ResponsePolicy | claude_client.py:341-378 | the first successful call's text is returned; when all four calls fail the result is "Error: " + the first error |
| Ledger.TpSl | position_manager.py:615-633 | long: tp = e(1+tp%), sl = e(1−sl%); short: tp = e(1−tp%), sl = e(1+sl%) |
| Ledger.TpSlBracketsEntry | position_manager.py:615-633 | for percentages in (0, 100) and a positive entry, a long has sl < entry < tp and a short has tp < entry < sl, all positive |
| Ledger.Put | position_manager.py:285-302 | storing under a new id appends it to the dict order; storing under an existing id keeps the order |
| Ledger.FirstOpenFrom | position_manager.py:177-192 | the first open log of the symbol at or after position k, if any |
| Ledger.ActiveLogId | position_manager.py:177-192 | the result is an open log of the symbol with no open log of the symbol before it; None exactly when the symbol has no open log |
| Ledger.Update | position_manager.py:348-363 | replacing a log keeps the dict order |
| Ledger.SaveLoadLog | position_manager.py:105-149 | loading a saved log gives back the same log |
| Ledger.SavedTexts | position_manager.py:132-149 | the saved text fields load back unchanged |
| Ledger.SavedNumbers | position_manager.py:132-149 | the saved numeric fields load back unchanged |
| Ledger.SavedOptionalNumbers | position_manager.py:132-149 | the saved optional fields, including null, load back unchanged |
| Ledger.SavedLogs | position_manager.py:130-156 | the saved file lists each log under its id, in dict order |
| Ledger.LoadSavedSuffix | position_manager.py:97-156 | loading the rest of a saved ledger on top of its prefix restores it |
| Ledger.SaveLoadRoundTrip | position_manager.py:97-156 | loading what was saved rebuilds the same ledger, order included |
| Ledger.EntryAttempt | position_manager.py:237-319 | an entry calls set_leverage first; a recorded entry follows a successful order and adds an open log with TP/SL; a refused order never re-queries the position |
| Ledger.PnlIsPriceMove | position_manager.py:507-513 | PnL is the price move × size × leverage, and it is positive exactly when the move favours the position |
| Ledger.CloseBlock | position_manager.py:483-525 | the close keeps the log order |
| Ledger.CloseBlockOutcome | position_manager.py:483-529 | the close succeeds exactly when price, close and cancel succeed; a failure leaves the ledger unchanged, except on a zero entry price with an open log, where the log is closed (exit fields set, pnl None) before the ZeroDivisionError replies "error" |
| Ledger.CloseBlockClosesActiveLog | position_manager.py:483-525 | a successful close closes exactly the active log, with exit price, time, reason and PnL, and leaves every other log unchanged |
| Ledger.EnterAndRecord | position_manager.py:228-324 | the entry succeeds exactly when the attempt is entered; it then replies Opened and records the new open log; a failure leaves the ledger unchanged |
| Ledger.CloseReply | position_manager.py:518-529 | the reply reports success exactly when the close exited |
| Ledger.OpenRejectedSendsNoOrder | position_manager.py:228-324 | when the account is flat and the advisor refuses, the reply is "rejected" and neither leverage nor an order is sent |
| Ledger.OpenSameSideSkips | position_manager.py:328-333 | an open position on the requested side is skipped, with no further call |
| Ledger.ReverseSuccessIsEntry | position_manager.py:335-457 | a successful reversal is an entry applied to the ledger after the old log is closed |
| Ledger.OpenSuccessIsEntry | position_manager.py:194-461 | every successful open is an entry in the requested side |
| Ledger.OpenSuccessRecordsLog | position_manager.py:276-315 | a successful open replies with entry price, size, leverage and TP/SL, and appends one open log with those values |
| Ledger.OpenFailureRecordsNothing | position_manager.py:228-324 | a failed entry from a flat account replies "error" and records nothing |
| Ledger.OpenOrderRefused | position_manager.py:253-269 | a rejected order is answered with the exchange's retMsg, and the order is the last call |
| Ledger.ReversalCloseFailure | position_manager.py:339-343 | a refused close during reversal replies "error" and does not consult the advisor |
| Ledger.ReversalClosesPriorLog | position_manager.py:339-374 | a reversal closes the prior log at the current price, with the reversal exit reason and the unrealised PnL |
| Ledger.OpenAsCodedRaises | position_manager.py:210-220 | as coded, the open handler raises after at most two calls, having recorded nothing |
| Ledger.OpenIntendedConsultsAdvisor | position_manager.py:210-234 | with the corrected market data, a flat account reaches the advisor; a success implies approval |
| Ledger.CloseWithoutPositionSkips | position_manager.py:476-480 | with no position the close is skipped, with no further call |
| Ledger.CloseSuccess | position_manager.py:483-525 | the close replies success exactly when price, close and cancel succeed and, with an open log, the entry price is not zero; otherwise it replies "error" |
| Ledger.CloseFailureLeavesLedger | position_manager.py:483-529 | a close whose price, close or cancel call fails, or whose close reply is falsy, replies "error" and leaves the ledger unchanged (the zero-entry-price path, which closes the log first, is not such a failure) |
| Ledger.CloseZeroEntryClosesLog | position_manager.py:497-509 | with a zero entry price the open log gets its exit fields and "closed" status, keeps its unset PnL, and the block raises ZeroDivisionError |
| Ledger.TrendMaintainSendsNoClose | position_manager.py:610-613 | an advisor "no" keeps the position and sends no close |
| Ledger.TrendApprovedCloses | position_manager.py:556-609 | an advisor "yes" runs the close block with the trend reason; it succeeds exactly when the close does |
| Ledger.TrendAsCodedRaises | position_manager.py:556-557 | as coded, the trend handler with a position raises and sends no close |
| Ledger.PositionManager.constructor | position_manager.py:85-128 | the settings are kept, and the trade logs are those loaded from the saved file, or none |
| Ledger.PositionManager.Record | position_manager.py:300-302 | storing a log updates the dict as Put does |
| Ledger.PositionManager.LoadTradeLogs | position_manager.py:97-128 | the loop loads saved entries in file order until the first entry whose fields do not have the TradeLog types |
| Ledger.PositionManager.SaveTradeLogs | position_manager.py:130-156 | the loop writes exactly the saved form of the ledger |
| Ledger.PositionManager.GetActiveTradeLog | position_manager.py:177-192 | the loop finds the first open log of the symbol |
| Ledger.PositionManager.Enter | position_manager.py:237-319 | the new ledger and reply are EnterAndRecord's |
| Ledger.PositionManager.CloseActive | position_manager.py:483-525 | the new ledger and outcome are those of the close block |
| Ledger.PositionManager.ExitActiveLog | position_manager.py:495-516 | the active log is closed as ExitActive states |
| Ledger.PositionManager.HandleOpenPosition | position_manager.py:194-461 | the reply, calls and new ledger are those of the open specification |
| Ledger.PositionManager.Reverse | position_manager.py:335-461 | the reply, calls and new ledger are those of the reversal specification |
| Ledger.PositionManager.HandleClosePosition | position_manager.py:463-529 | the reply, calls and new ledger are those of the close specification |
| Ledger.PositionManager.HandleTrendTouch | position_manager.py:531-613 | the reply, calls and new ledger are those of the trend specification |
| Decisions.ExecutionOf | decision_manager.py:180-194 | delivery means a dict reply whose status is "success"; a raise or a non-dict is an error |
| Decisions.Failure | decision_manager.py:252-254 | the error reply carries no AI decision |
| Decisions.DecisionManager.constructor | decision_manager.py:37-78 | exactly the configured symbols get a client and a collector, built with each symbol's credentials |
| Decisions.DecisionManager.GetBybitClient | decision_manager.py:80-93 | the client exists exactly for configured symbols; otherwise the call raises "unsupported symbol" |
| Decisions.DecisionManager.GetDataCollector | decision_manager.py:95-108 | the collector exists exactly for configured symbols; otherwise the call raises |
| Decisions.DecisionManager.GetActivePosition | decision_manager.py:110-130 | the position query's outcome, or a raise when the symbol is not configured |
| Decisions.DecisionManager.HandleOpenPosition | decision_manager.py:132-254 | an open signal is sent only if the advisor approved, with the lower-cased side; success means approved and delivered; an unknown symbol fails with no calls |
| Decisions.DecisionManager.HandleClosePosition | decision_manager.py:256-295 | a close is sent exactly when a position exists; success exactly when it is delivered; "skipped" exactly when there is no position |
| Decisions.DecisionManager.HandleTrendTouch | decision_manager.py:297-382 | the advisor is consulted only when \|change rate\| ≥ 3.3%; below that the reply is "skipped" with the rate; a decision is sent only after approval |
| Decisions.OpenFlatAccount | decision_manager.py:164-194 | with no position, a refusal replies "rejected" with the advisor's reason and sends nothing; an approval sends the open signal and succeeds exactly when it is delivered, otherwise "error" |
| Decisions.OpenSameSideSkips | decision_manager.py:197-203 | a position on the requested side replies "skipped" after the position and market queries only |
| Decisions.OpenReversal | decision_manager.py:205-218 | the close signal goes first; if it is not delivered the reply is "error" and the advisor is not asked |
| Decisions.OpenReversalAfterClose | decision_manager.py:220-250 | after a delivered close, a refusal gives "partial"; an approval sends the open signal: delivered gives "success", refused gives "partial", a non-dict reply "error" |
| Decisions.TrendUnconfiguredFails | decision_manager.py:80-93 | a symbol without a client replies "error" without any call |
| Decisions.TrendWithoutPositionSkips | decision_manager.py:311-315 | with no position the reply is "skipped" after the position query alone |
| Decisions.TrendPastGate | decision_manager.py:342-378 | past the gate an approval sends the decision and succeeds exactly when delivered; a refusal replies "maintain" and sends nothing; the change rate is quoted |
| Decisions.TrendTouchAsCodedSendsNothing | decision_manager.py:343-382 | as coded, the trend handler never sends a decision |
| Decisions.OpenAsCodedSendsNothing | decision_manager.py:150-254 | as coded, the open handler replies "error" after the position and market-data queries only |
| Monitor.WatchFor | position_monitor.py:175-193 | the watch keeps the position and takes its TP/SL prices from the take-profit/stop-loss formula |
| Monitor.TriggerOf | position_monitor.py:151-170 | long: TP when price ≥ tp, else SL when price ≤ sl; short: mirrored |
| Monitor.TriggerBand | position_monitor.py:151-193 | with sane percentages, TP fires exactly on the profitable side of entry and SL on the losing side |
| Monitor.CheckSpec | position_monitor.py:100-173 | one check leaves every other symbol's watch unchanged |
| Monitor.NoPositionClearsWatch | position_monitor.py:112-117 | with no position the watch is dropped and no signal is sent |
| Monitor.FailedLookupChangesNothing | position_monitor.py:120-173 | a failed position query, or a failed or zero price, changes nothing and sends no signal |
| Monitor.CheckTracksPosition | position_monitor.py:129-170 | TP/SL is recomputed when the entry or side changed; a trigger sends a signal and drops the watch, otherwise the watch is kept |
| Monitor.CycleSpec | position_monitor.py:81-98 | one result per monitored symbol |
| Monitor.CycleForgetsClosedPositions | position_monitor.py:81-117 | after a cycle no symbol without a position is watched, and no new symbol appears |
| Monitor.AbsentStaysAbsent | position_monitor.py:81-98 | a symbol outside the list is never added |
| Monitor.PositionMonitor.constructor | position_monitor.py:32-58 | TP and SL default to 30% and 2.5%; the cache starts empty and the monitor stopped |
| Monitor.PositionMonitor.Start | position_monitor.py:62-72 | the monitor is running and the cache is unchanged |
| Monitor.PositionMonitor.Stop | position_monitor.py:74-79 | the monitor is stopped and the cache is unchanged |
| Monitor.PositionMonitor.SendCloseSignal | position_monitor.py:195-221 | the symbol's watch is removed |
| Monitor.PositionMonitor.CheckPosition | position_monitor.py:100-173 | the new cache and signal are those of CheckSpec |
| Monitor.PositionMonitor.MonitorCycle | position_monitor.py:81-98 | the loop over the symbols does what CycleSpec states |
| Webhook.Route | webhook_server.py:38-113 | errors are 400 or 500; malformed payloads are rejected, with 500 only for undecodable JSON; dispatch goes to the handler named by the event, with the symbol upper-cased; open needs a non-empty position string |
| Webhook.MalformedIsRejected | webhook_server.py:52-70 | a non-JSON request, an empty or non-object body, or a missing event or symbol is answered with 400 and no handler |
| Webhook.UpperIdempotent | webhook_server.py:73 | a forwarded symbol is already upper-case |
| Webhook.SymbolCaseIgnored | webhook_server.py:65-104 | payloads differing only in the symbol's letter case are routed identically |
| Text.NatToStringRoundTrip | bybit_client.py:166 | the decimal rendering of a timestamp reads back as the same number (used by Exchange.SignStringTimestampReadsBack) |

## Left out

- HTTP transport, HMAC-SHA256 digests, the requests session, sleeps (only counted), threads, the monitor's lock and all logging are not modelled.
- The execution-server calls (`execution_client.py`) and the order-side oracle calls are not modelled. `calculate_order_quantity`, `set_leverage`, `place_market_order`, `set_tp_sl`, `close_position`, `cancel_all_orders` and `get_order_book` are oracle outcomes, because their bodies are not part of this model.
- IEEE floating point is not modelled: prices are exact reals and NaN is `None`.
- The tie order of pandas `sort_values` is not modelled. pandas' default sort is not stable; the model's insertion sort is.
- `lower()`, `upper()` and `strip()` are modelled on ASCII only; Python's `strip()` also removes Unicode whitespace.
- Log and reply message texts are paraphrased where they carry no logic.
- The parsing of the settings file, the saved-file JSON encoding and file I/O are not modelled; only the field mapping is.
- `save_trading_summary` (file output) is not modelled.
- OBV is not modelled, since the source computes none.
- The change-rate `:.2f` string formatting is not modelled; the rate is returned as a number.
- Prompt construction and prompt files are not modelled.
- The freshness of `uuid4` ids is not modelled: Ledger.OpenSuccessRecordsLog assumes the new id is not already in the ledger.
- Ledger.Ledger (the trade logs) does not enforce "at most one open log per symbol"; it is not an invariant of the source.
- Monitor.PositionMonitor.MonitorCycle: only one cycle of the endless `_monitor_loop` is modelled, and its outer exception handler is not.
- Webhook.Show renders only strings, booleans and None; other event values are not rendered.
- Decisions.DecisionManager.HandleOpenPosition does not state the reversal path's reply texts. Its own ensures state the rules that hold on every path; the status of each path is stated by Decisions.OpenFlatAccount, Decisions.OpenSameSideSkips and Decisions.OpenReversal.
- Decisions.DecisionManager.HandleTrendTouch: its own ensures state the gate and the calls; the status of each remaining path is stated by Decisions.TrendUnconfiguredFails, Decisions.TrendWithoutPositionSkips and Decisions.TrendPastGate.
- Ledger.LoadLog: the saved fields are read into typed TradeLog fields, while Python stores whatever `.get` returns (a missing symbol, a null status, a string leverage); such an entry stops the model's load where Python keeps loading.
- Market.KlineCandles: a dict-valued `list` is walked over its keys in Python; key order is not part of the JSON model, so it raises here.
- Monitor.CycleSpec states that it yields one result per symbol. What each step does is stated by Monitor.CheckSpec and its lemmas.

## Findings

| source | as written | input that shows it | evidently intended | confidence | as-written member | corrected member |
|---|---|---|---|---|---|---|
| technical_indicators.py:101-188 | after `sort_values`, the frame keeps its original index labels; indicators are computed by position (`.iloc`, `diff`, `shift`) but written with `.loc[i]`, which addresses the row labelled i | 14 candles with timestamps 1, 2, …, 13, 0: the first RSI is written to the row labelled 13, which is the oldest candle, and the newest candle gets no RSI | each indicator is stored on the row at the position it was computed for | not executed | Indicators.ApplyIndicatorsAsWritten | Indicators.ApplyIndicators |
