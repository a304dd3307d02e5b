# A-share and quickstart backtest logic, modelled in Dafny

This project models the plain logic of a small backtesting repository. The
repository is built around an external backtesting library. Three pieces of
its own logic are modelled:

- **Performance summary** (`backtests/01_quickstart_macd.py`). The
  `realized_pnl` column of a positions report is converted to numbers: a
  string such as `"1,234.50 USD"` has `" USD"` and every `","` deleted and is
  read by `float`, and any other value is taken as a number. From those
  numbers the report computes wins (PnL > 0) and losses (PnL < 0), the win
  rate in percent, the total, mean, best and worst PnL. Only when there is at
  least one win and one loss does it also compute average win, average loss
  (absolute), profit factor and risk/reward. With no positions only a notice
  is printed. Module `Performance`, over exact reals; the string handling is
  in `Text` and `Money`.
- **A-share backtest configuration** (`backtests/06_ashare_bars.py`). The
  backtest stops early if the catalog is missing, has no instruments, or has
  no bars for the first instrument's daily bar type
  `"<SYMBOL>.<VENUE>-1-DAY-LAST-EXTERNAL"`. Otherwise it builds:
  - one NETTING/CASH/CNY venue configuration, starting with
    `"10_000_000 CNY"`, for each distinct venue;
  - one bar-data configuration per instrument;
  - one EMA-cross strategy configuration per instrument (periods 5 and 20,
    trade size 100).

  After the run it totals realized PnL by reading the first whitespace token
  of each money string. Module `AshareBacktest`: the list-building loops are
  methods with loop invariants.
- **A-share data setup** (`data_scripts/setup_ashare_data.py`). For each
  configured stock, the fetched daily table is handled as follows:
  - an empty table yields `(None, None)`;
  - otherwise the table's column names are lower-cased in place;
  - its naive Beijing-time index is moved to UTC (Asia/Shanghai is a fixed
    UTC+08:00, so 8 hours are subtracted from nanosecond stamps);
  - the equity `SYMBOL.VENUE` is created (CNY, 2 decimals, tick 0.01, lot 100,
    stamped 0);
  - the instrument and then its bars are written to the catalog.

  Any exception inside one stock's turn is caught and the loop continues.
  Module `AshareSetup` (a `Frame` class updated in place, a `Catalog` class
  that records writes, and the stock loop as a method). Module
  `Instruments` holds the id, equity and bar-type definitions shared by
  the setup and the backtest.

The model follows what the code does in these points:
- The win rate is a percentage (0 to 100), not a fraction.
- There is no currency check. The quickstart deletes only `" USD"`, and the
  A-share total ignores the currency code.
- Undefined risk figures are simply not computed. No "absent" markers are
  produced.
- Ingestion is one sequential loop, not concurrent sources.
- No daylight-saving fold policy is involved, because the only zone is
  Asia/Shanghai.

`fetch_and_process_data` returns two values for an empty table, but its
caller unpacks three. The resulting `ValueError` lands in the per-stock
handler, so the catalog outcome is the same as a deliberate skip: nothing is
written and the next stock is processed. The model records it that way
(`EmptyTableFails`).

## Model

| member | source | states |
|---|---|---|
| `Money.ParsePnlOfMoneyText` | backtests/01_quickstart_macd.py:106-110 | for every valid amount, its `"<amount> USD"` text, with or without thousands separators, is converted to exactly the amount's value |
| `Money.ParsePnlExample` | backtests/01_quickstart_macd.py:106-110 | `"1,234.50 USD"` converts to 1234.50 |
| `Money.ParseTokenOfMoneyText` | backtests/06_ashare_bars.py:143-145 | `float(str(pnl).split()[0])` reads `"<amount> <currency>"`, printed without thousands separators, as the amount's value, whatever the currency code (a grouped text such as `"1,234.50 CNY"` gives no value, as `float` raises on it) |
| `Money.ParsePnl` | backtests/01_quickstart_macd.py:106-110 | a numeric cell converts to itself; a string cell converts only when it is non-empty (its exact value is `ParsePnlOfMoneyText`) |
| `Money.ParseToken` | backtests/06_ashare_bars.py:145 | a blank text has no reading (`split()[0]` raises); otherwise the reading is exactly `float` of the first whitespace-delimited token (the only non-empty, space-free run that follows the leading whitespace) |
| `Text.FirstToken` | backtests/06_ashare_bars.py:145 | there is no token exactly when the text is all whitespace; otherwise the token is non-empty, has no space, and is the maximal run that follows the leading spaces |
| `Text.Remove` | backtests/01_quickstart_macd.py:107 | `replace(pat, "")` never makes the text longer |
| `Text.RemoveOnlyDeletes` | backtests/01_quickstart_macd.py:107 | `replace(pat, "")` only deletes characters: the result's characters are a sub-multiset of the original's |
| `Text.RemoveAbsent` | backtests/01_quickstart_macd.py:107 | deleting a character that does not occur changes nothing |
| `Text.ParseFloat` | backtests/01_quickstart_macd.py:107-108 | `float` reads nothing from an empty text, a negative value only from a text starting with `-`, and a `-` text never reads as positive (its exact value is proved by `Text.ParseFloatNegative` and `Text.ParseFloatUnsigned`) |
| `Text.RemoveSuffix` | backtests/01_quickstart_macd.py:107 | `replace(" USD", "")` deletes a trailing `" USD"` and changes nothing else when the text before it has no space |
| `Text.RemoveCharSpec` | backtests/01_quickstart_macd.py:107 | `replace(",", "")` leaves no comma and keeps every other character |
| `Performance.PnlNumeric` | backtests/01_quickstart_macd.py:106-110 | the numeric column has one value per cell, each the conversion of its cell; it is absent exactly when some cell cannot be converted |
| `Performance.Wins` | backtests/01_quickstart_macd.py:113 | the winning trades are exactly the entries with PnL > 0 |
| `Performance.Losses` | backtests/01_quickstart_macd.py:114 | the losing trades are exactly the entries with PnL < 0 |
| `Performance.Partition` | backtests/01_quickstart_macd.py:113-114 | wins, losses and breakeven entries split the column as a multiset, so wins + losses never exceed the positions |
| `Performance.WinRateBounds` | backtests/01_quickstart_macd.py:115 | the win rate lies in [0, 100]; it is 0 without positions and 100 exactly when every position won |
| `Performance.Max` | backtests/01_quickstart_macd.py:124 | the best trade is an entry that no entry exceeds |
| `Performance.Min` | backtests/01_quickstart_macd.py:125 | the worst trade is an entry that no entry is below |
| `Performance.TotalSplits` | backtests/01_quickstart_macd.py:122 | total PnL equals the sum of the wins plus the sum of the losses (breakeven adds nothing) |
| `Performance.MeanBetween` | backtests/01_quickstart_macd.py:123-125 | the average PnL lies between the worst and the best trade |
| `Performance.AnalyzeEmpty` | backtests/01_quickstart_macd.py:104-146 | an empty report produces only the no-positions notice |
| `Performance.Summarize` | backtests/01_quickstart_macd.py:112-143 | a non-empty column gives as many positions as entries, wins + losses at most that, a win rate in [0, 100], total = sum of wins + sum of losses, and worst ≤ average ≤ best |
| `Performance.RiskOf` | backtests/01_quickstart_macd.py:133-143 | with at least one win and one loss, average win = mean of the wins, average loss = −mean of the losses (its absolute value), profit factor = sum of wins / −sum of losses, and risk/reward = average win / average loss; all four are positive, and risk/reward = profit factor × losses / wins |
| `Performance.Analyze` | backtests/01_quickstart_macd.py:104-146 | the no-positions notice comes exactly for an empty report, the conversion fails exactly when some cell cannot be converted, and otherwise the summary counts every position |
| `Performance.AnalyzeSummary` | backtests/01_quickstart_macd.py:104-130 | for a convertible report the win and loss counts are the sizes of the wins and losses, the win rate is wins / positions × 100, total and average are the column's sum and mean, and best and worst are its maximum and minimum |
| `Performance.RiskMetricsPositive` | backtests/01_quickstart_macd.py:133-143 | the risk block exists exactly when there are wins and losses; then average win = mean of the wins, average loss = −mean of the losses, profit factor = sum of wins / −sum of losses, risk/reward = average win / average loss, all four positive |
| `Performance.NoLossExample` | backtests/01_quickstart_macd.py:112-138 | PnLs 100 and 50 give win rate 100, total 150 and no risk block |
| `Instruments.ParseIdText` | data_scripts/setup_ashare_data.py:36-39 | printing a well-formed id and parsing it back gives the same symbol and venue |
| `Instruments.ParseId` | data_scripts/setup_ashare_data.py:36-39 | a parsed id is well-formed and prints back as exactly the parsed text |
| `Instruments.CreateAshareInstrument` | data_scripts/setup_ashare_data.py:33-47 | a well-formed `symbol.venue` always gives an equity; the equity's id is well-formed and prints as `symbol.venue`, with raw symbol `symbol`, currency CNY and lot size 100 |
| `Instruments.CreatedInstrument` | data_scripts/setup_ashare_data.py:33-47 | the equity has id `symbol.venue`, currency CNY, precision 2, price increment 10^-2, lot size 100, and both stamps 0 |
| `Instruments.CreateRejectsEmpty` | data_scripts/setup_ashare_data.py:36-39 | an empty venue, or an empty symbol with a venue that has no `.`, makes the id parse, and so the creation, fail (an empty symbol with any venue is rejected earlier, by `Symbol(...)` at line 109: see `AshareSetup.StockWrites`) |
| `Instruments.BarTypeInjective` | data_scripts/setup_ashare_data.py:79 | distinct well-formed instruments never share a daily bar type |
| `Instruments.BarTypeNamesId` | data_scripts/setup_ashare_data.py:79 | the daily bar type `"<id>-1-DAY-LAST-EXTERNAL"` starts with the id's text, and parsing that prefix gives back the id |
| `Instruments.MoutaiExample` | data_scripts/setup_ashare_data.py:33-47 | symbol 600519 at SSE gives the CNY equity `600519.SSE` with lot size 100 |
| `Instruments.MoutaiBarType` | data_scripts/setup_ashare_data.py:79 | the id prints as `600519.SSE` and its bar type as `600519.SSE-1-DAY-LAST-EXTERNAL` |
| `AshareBacktest.VenueCount` | backtests/06_ashare_bars.py:59 | there are at most as many venues as instruments, and at least one when there is an instrument |
| `AshareBacktest.BuildVenues` | backtests/06_ashare_bars.py:60-69 | one venue configuration per venue name, no name twice, every name covered, each NETTING / CASH / CNY with starting balance `10_000_000 CNY` |
| `AshareBacktest.BuildDataConfigs` | backtests/06_ashare_bars.py:75-84 | one bar-data configuration per instrument, in instrument order, each on the catalog path and that instrument's id |
| `AshareBacktest.BuildStrategies` | backtests/06_ashare_bars.py:89-104 | one strategy per instrument, in order, on that instrument's daily bar type, with strategy path `strategies.definitions:EMACrossBarStrategy`, config path `strategies.definitions:EMACrossBarConfig`, fast period 5 < slow period 20 and trade size 100 |
| `AshareBacktest.Configure` | backtests/06_ashare_bars.py:29-104 | a missing catalog, an empty instrument list and no bars for the first instrument's bar type each stop the run with their own outcome, checked in that order; otherwise the run is configured and covers each distinct venue once and each instrument once |
| `AshareBacktest.FirstRaise` | backtests/06_ashare_bars.py:143-145 | every reading before the returned position succeeded, and the one at it (if any) raised |
| `AshareBacktest.Amounts` | backtests/06_ashare_bars.py:143-145 | when every reading succeeded, one amount per reading, each the value that reading produced |
| `AshareBacktest.AddUpPnl` | backtests/06_ashare_bars.py:141-145 | the loop stops at the first text whose reading raises, or at the end; every reading before that succeeded, and the running total is their sum |
| `AshareBacktest.SumRealizedPnl` | backtests/06_ashare_bars.py:140-146 | no total for an empty report; otherwise the sum of all first-token amounts, or the position of the first text whose reading raises |
| `AshareBacktest.TokenAmountsOfMoney` | backtests/06_ashare_bars.py:143-145 | for the engine's money texts printed without thousands separators, every text reads and the amounts read are the amounts' values |
| `AshareBacktest.TotalsAgree` | backtests/06_ashare_bars.py:142-145 | for USD positions whose money texts are printed without thousands separators, this total equals the quickstart report's total PnL (a grouped text such as `"1,234.50 USD"` makes this total raise while the quickstart reads it) |
| `AshareSetup.LowerColumns` | data_scripts/setup_ashare_data.py:62 | as many columns as before, each name as long as the original and, character by character, the lower-case form of the original's character |
| `AshareSetup.LowerColumnsIdempotent` | data_scripts/setup_ashare_data.py:62 | lower-casing twice equals lower-casing once, and lower-case names are kept |
| `AshareSetup.UtcIndex` | data_scripts/setup_ashare_data.py:75 | same number of rows, each stamp 8 hours earlier (adding 8 h gives the local stamp back), and row order preserved |
| `AshareSetup.ShanghaiExample` | data_scripts/setup_ashare_data.py:75 | 2023-12-06 09:30 in Beijing is 2023-12-06 01:30 UTC, which is 1701826200 s after the epoch |
| `AshareSetup.Frame.LowercaseColumns` | data_scripts/setup_ashare_data.py:62 | the table's column names are replaced by their lower-cased forms, and the index is unchanged |
| `AshareSetup.Frame.LocalizeToUtc` | data_scripts/setup_ashare_data.py:75 | the table's index is replaced by its UTC form, and the columns are unchanged |
| `AshareSetup.FetchAndProcess` | data_scripts/setup_ashare_data.py:49-81 | an empty table is returned untouched as `(None, None)`; otherwise the table is normalized in place, and the result is the equity and its bar type or the creation error |
| `AshareSetup.Catalog.WriteData` | data_scripts/setup_ashare_data.py:122-123 | each write is appended to what the catalog received |
| `AshareSetup.StockWrites` | data_scripts/setup_ashare_data.py:104-129 | a stock's turn writes nothing when its symbol is empty (`Symbol("")` raises at line 109, before the fetch), its table is empty or the wrangler raises, and does write when the table is non-empty, the wrangler succeeds and the id is well-formed |
| `AshareSetup.ProcessStock` | data_scripts/setup_ashare_data.py:105-129 | one stock's turn appends exactly that stock's writes to the catalog (nothing if any step raises) and reports the stock's code exactly when the turn raised |
| `AshareSetup.NextTurn` | data_scripts/setup_ashare_data.py:104-129 | the run over one more stock is the run so far followed by that stock's writes and report |
| `AshareSetup.Ingest` | data_scripts/setup_ashare_data.py:104-129 | the catalog receives exactly the writes of the stocks whose turn succeeded, in stock order, and the failed stocks are reported in order |
| `AshareSetup.SetupCatalog` | data_scripts/setup_ashare_data.py:84-129 | a fresh catalog receives exactly the writes of the two configured stocks |
| `AshareSetup.IngestAppend` | data_scripts/setup_ashare_data.py:104-129 | each stock's writes and failure depend on that stock alone: a run over two lists is the run over the first followed by the run over the second |
| `AshareSetup.TurnsSplit` | data_scripts/setup_ashare_data.py:104-129 | each stock's turn depends on that stock alone, so the turns of a list with one stock in the middle are the turns before it, its own turn, then the turns after it |
| `AshareSetup.Splice` | data_scripts/setup_ashare_data.py:104-129 | the run over a list with one stock in the middle is the run before it, that stock's own writes and report, then the run after it |
| `AshareSetup.FailedStockWritesNothing` | data_scripts/setup_ashare_data.py:126-129 | a stock whose turn raises adds nothing to the catalog, is reported, and does not affect the stocks before or after it |
| `AshareSetup.FailedTurnSplice` | data_scripts/setup_ashare_data.py:126-129 | a turn that raised contributes no writes and exactly its code to the report, wherever it falls in the run |
| `AshareSetup.EmptyTableFails` | data_scripts/setup_ashare_data.py:56-58 | an empty table makes the stock's turn raise (a 2-tuple unpacked into three names at line 109), so nothing is written for it |
| `AshareSetup.InstrumentBeforeBars` | data_scripts/setup_ashare_data.py:122-123 | the writes come in pairs: each instrument is written immediately before bars of that instrument's daily bar type |
| `AshareSetup.PairedTurns` | data_scripts/setup_ashare_data.py:104-123 | when every turn writes instrument–bars pairs, the whole run does too |
| `AshareSetup.SucceededStockWrites` | data_scripts/setup_ashare_data.py:109-123 | a successful stock writes its equity and then bars stamped with the UTC index; the bar type written is the one the backtest's strategy subscribes to |
| `AshareSetup.ConfiguredStocks` | data_scripts/setup_ashare_data.py:99-102 | the two configured stocks have well-formed ids `600519.SSE` and `000001.SZSE` |

## Left out

- Printing, `:.2f` formatting, tracebacks, the final instrument listing of the setup script, the per-venue account reports of the A-share backtest, and `len(orders)` in the quickstart. These only print.
- The backtest engine run, the catalog's storage and queries, `get_price`, and the directory reset (`rmtree`/`mkdir`). These are library, network and file-system operations. Their results are parameters: the fetched tables, whether the catalog exists, and the number of bars a query returns.
- The bar wrangler is a library call. The model takes its failure as an input. When it succeeds, the model records the bars as the table's UTC stamps under the bar type. The conversion of the OHLCV values is not modelled.
- Catalog writes are assumed to succeed. A failure between the instrument write and the bars write is not modelled.
- IEEE-754 rounding: PnL values are exact reals.
- Asia/Shanghai offsets before 1991 (daylight saving, local mean time) are not modelled. The offset is fixed at +08:00.
- The unused bar type computed in the data-config loop (backtests/06_ashare_bars.py:78) has no effect and is not modelled.
- `BarType.from_str` followed by `str` is taken to give back the same text. That round trip is the library's.
- ParseFloat: reads only an optional sign, digits and at most one decimal point. Python's `float` also accepts exponents, digit underscores, surrounding whitespace, `inf` and `nan`, and decimal digits of other scripts (full-width `１２３`, for example); the model reads those as errors.
- Symbol: `Symbol(...)` at data_scripts/setup_ashare_data.py:109 is modelled only as rejecting the empty string. The library's other checks on the symbol text are not modelled.
- ParseId: follows the library's `InstrumentId.from_str` only as far as splitting at the last `.` and requiring both parts to be non-empty. The library's further character checks are not modelled.
- IsSpace: only the ASCII characters that Python counts as whitespace separate tokens: space, `\t`, `\n`, `\v`, `\f`, `\r` and the separators `\x1c`-`\x1f`. Python's `split()` also splits on non-ASCII spaces such as `\x85`, `\xa0` and `\u3000`.
- Lower: lower-cases ASCII letters only. Python's `str.lower` also maps other scripts.
