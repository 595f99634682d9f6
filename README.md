# Smart Trading Dashboard — a verified model of its core

The dashboard takes a comma-separated list of stock symbols and downloads each
symbol's price history. It adds the technical indicators the user ticked:
a simple and an exponential moving average, the relative strength index and
Bollinger bands. Separately, `strategy.py` defines two backtrader strategies,
an RSI threshold strategy and an SMA-crossover strategy. They compute their
own RSI and SMA lines with backtrader's indicators and do not read the
columns the dashboard adds. This project models the logic underneath and
proves what it promises.

- `wrappers.dfy` (`Wrappers`): `Option` and `Result`.
- `series.dfy` (`Series`): sums, means, trailing windows, minimum and maximum,
  and the sample variance (ddof = 1) of a price series.
- `indicators.dfy` (`Indicators`): the four indicator series of `indicators.py`.
  - Prices are `real`. An indicator series is a `seq<Option<real>>`, and
    `None` marks the NaN entries pandas produces: those of a window's
    warm-up, and an RSI of 0/0. The one inf case, a zero average loss with a
    positive average gain, makes the ratio inf and the RSI exactly 100, so it
    is `Some(100.0)`.
  - The DataFrame is the class `Frame`: a `Close` series and a map of named
    columns.
  - Each `add_*` function is a method that writes its column(s) into the
    frame in place.
- `strategy.dfy` (`Strategy`):
  - The per-bar `next()` rules of `RSI_Strategy` and `SMA_CrossStrategy`, and
    the class `Strategy` whose `Next` updates a position and the list of
    orders placed.
  - `Backtest` is the bar-by-bar loop that cerebro runs, proved equal to the
    pure replay `Replay`.
  - `RunBacktest` is the strategy-name dispatch of `run_backtest`.
  - Backtrader's own indicator lines are inputs. Comparisons with an undefined
    value are false. A buy adds one unit to the position and a sell removes
    one (the default stake).
- `app.dfy` (`App`):
  - The symbol parsing of the "Analyze" handler.
  - The selection-driven indicator pipeline, as a method on a `Frame`.
  - The per-symbol loop: each symbol is fetched and analysed, or its failure is
    reported, and the loop goes on to the next symbol. The data provider is a
    parameter (`download`), and `fetch_data`'s empty-result check is `FetchData`.

Where the code differs from the textbook definitions of these indicators
(Wilder's RSI, with a warm-up of `window` bars and a value that saturates at
100, and Bollinger bands over the population standard deviation), or from
what its interface suggests, the model follows the code:

- RSI is defined from index `window - 1`, not `window`. `diff()` leaves entry 0
  NaN, but `where(...)` replaces it with 0 before the rolling means
  (`indicators.py:4-8`).
- The RSI averages are plain rolling means of the last `window` gains and
  losses, not Wilder's recursive smoothing.
- When both average gain and average loss are 0, RSI is undefined (0/0).
- `rolling().std()` uses ddof = 1, so with a window of 1 the bands are
  undefined everywhere.
- `SMA_CrossStrategy` sells on a downward cross even when it holds nothing,
  so its position can go to -1, a short of one unit (`strategy.py:19-20`;
  `CrossSignals` and `CrossAlternates`).
- The strategy chosen in the "Select strategy" box (`app.py:19`) is never
  passed to `run_backtest`. The "Analyze" handler runs no backtest, and the model keeps
  it that way.

## Model

| member | source | states |
|---|---|---|
| Indicators.RollingMean | indicators.py:7-8 | a rolling mean has one entry per bar |
| Indicators.RollingMeanNonNegative | indicators.py:7-8 | a rolling mean of non-negative gains or losses is non-negative wherever it is defined |
| Indicators.Sma | indicators.py:20-22 | the SMA series has the input's length |
| Indicators.SmaShape | indicators.py:20-22 | SMA has the input's length, entry i is undefined exactly when i < window-1, and elsewhere it equals the mean of close[i-window+1..i] |
| Indicators.SmaWithinWindow | indicators.py:21 | every SMA entry from window-1 on is defined and lies between the minimum and the maximum of its window |
| Indicators.SmaOfConstant | indicators.py:21 | a constant series has SMA equal to that constant past the warm-up |
| Indicators.Alpha | indicators.py:25 | the smoothing factor 2/(span+1) lies in (0, 1] for span >= 1 |
| Indicators.EmaAt | indicators.py:25 | with a smoothing factor of 1 the average is the close itself, and over a constant prefix it is that constant |
| Indicators.Ema | indicators.py:24-26 | the EMA series has the input's length |
| Indicators.EmaShape | indicators.py:25 | EMA is defined at every index, EMA[0] = close[0], and EMA[t] = a·close[t] + (1-a)·EMA[t-1] with a = 2/(span+1) (adjust=False) |
| Indicators.EmaWithin | indicators.py:25 | if all closes up to t lie in [lo, hi], so does EMA[t] |
| Indicators.EmaWithinHistory | indicators.py:25 | EMA[t] lies between the minimum and the maximum of close[0..t] |
| Indicators.Gains | indicators.py:4-5 | one gain per bar |
| Indicators.Losses | indicators.py:4-6 | one loss per bar |
| Indicators.GainsAndLosses | indicators.py:4-6 | gain and loss are non-negative and never both positive, gain[0] = loss[0] = 0, and gain[i] - loss[i] = close[i] - close[i-1] for i >= 1 |
| Indicators.AverageGain | indicators.py:7 | one average gain per bar |
| Indicators.AverageLoss | indicators.py:8 | one average loss per bar |
| Indicators.RsiValue | indicators.py:9-10 | a defined RSI value lies in [0, 100], and the value is undefined exactly when an average is undefined or both averages are 0 |
| Indicators.Rsi | indicators.py:3-10 | one RSI entry per bar |
| Indicators.RsiFormula | indicators.py:9-10 | for g >= 0 and l > 0, 100 - 100/(1 + g/l) = 100·g/(g+l), which lies in [0, 100) and is 0 exactly when g = 0 |
| Indicators.RsiValueCases | indicators.py:9-10 | a positive average loss gives the formula, zero loss with positive gain gives exactly 100 (inf ratio), and zero over zero gives an undefined value |
| Indicators.RsiEntry | indicators.py:7-10 | RSI entry i is computed from the two rolling averages at i, and both averages are non-negative |
| Indicators.RsiWarmup | indicators.py:5-10 | RSI is undefined for i < window-1, and both averages are defined from window-1 on |
| Indicators.RsiAt | indicators.py:7-10 | past the warm-up, the three cases for RSI: the formula with a value in [0, 100) equal to 100·g/(g+l), exactly 100, or undefined |
| Indicators.RsiBounded | indicators.py:10 | every defined RSI entry lies in [0, 100] |
| Indicators.RsiSaturatesHigh | indicators.py:5-10 | a window with no losses and at least one gain gives RSI = 100 |
| Indicators.RsiSaturatesLow | indicators.py:5-10 | a window with no gains and at least one loss gives RSI = 0 |
| Indicators.FiveBarMoves | indicators.py:4-6 | for closes 10, 11, 12, 11, 10 the gains are 0, 1, 1, 0, 0 and the losses 0, 0, 0, 1, 1 |
| Indicators.FiveBarAverages | indicators.py:7-8 | the three-bar average gains and losses of that series |
| Indicators.RsiFiveBars | indicators.py:3-10 | three-bar RSI of that series is undefined, undefined, 100, 200/3, 100/3 |
| Indicators.RollingStd | indicators.py:15 | one standard-deviation entry per bar |
| Indicators.BollingerBands | indicators.py:13-18 | both bands have one entry per bar |
| Indicators.BandsAroundMean | indicators.py:14-17 | a band is defined exactly when window >= 2 and i >= window-1, both bands are defined together, and upper + lower = 2·SMA |
| Indicators.BandsOrdered | indicators.py:15-17 | with a true square root, lower <= upper, and (upper - lower)² = 16 × the sample variance of the window |
| Indicators.BandsOfConstant | indicators.py:14-17 | for a window of at least 2 and a true square root, a constant series collapses both bands onto the constant past the warm-up |
| Indicators.ColumnName | indicators.py:21-25 | `f'{prefix}{n}'` starts with the prefix, continues with decimal digits only, and is never `Close`; `SMA_{window}` and `EMA_{span}` are its two instances |
| Indicators.ColumnNamesAtTwenty | app.py:37-40 | the dashboard's window and span of 20 name the columns `SMA_20` and `EMA_20` |
| Indicators.Frame.constructor | app.py:30 | a frame holds the downloaded Close series and columns |
| Indicators.Frame.AddRsi | indicators.py:3-11 | writes the `RSI` column only; Close and every other column are unchanged, and the row count is kept |
| Indicators.Frame.AddBollingerBands | indicators.py:13-18 | writes `Upper Band` and `Lower Band` only; Close and every other column are unchanged |
| Indicators.Frame.AddSma | indicators.py:20-22 | writes `SMA_{window}` only; Close and every other column are unchanged |
| Indicators.Frame.AddEma | indicators.py:24-26 | writes `EMA_{span}` only; Close and every other column are unchanged |
| Strategy.Decide | strategy.py:6-20 | RSI_Strategy buys only when flat, sells only when holding, and needs a defined RSI; SMA_CrossStrategy buys exactly at an upward cross and sells exactly at a downward cross, which need both lines defined at this bar and the one before |
| Strategy.Step | strategy.py:6-20 | one bar adds at most one order, placed at that bar, keeps the earlier orders, and moves the position by one unit in the order's direction; with no order nothing changes |
| Strategy.Replay | strategy.py:6-20 | after n bars there are at most n orders and the position is within the number of orders of flat |
| Strategy.ReplayOrdered | strategy.py:6-20 | orders are placed only at bars already processed, at most one per bar, in bar order |
| Strategy.PositionIsNetBuys | strategy.py:6-20 | the position is the number of buys minus the number of sells |
| Strategy.SignalAt | strategy.py:6-20 | an order (t, a) is recorded exactly when bar t was processed and the rule asked for `a` there, given the position before bar t |
| Strategy.RsiAlternates | strategy.py:6-10 | RSI_Strategy's position is always 0 or 1, its first order is a buy, it is long exactly when its last order was a buy, and its orders alternate |
| Strategy.RsiSignals | strategy.py:7-10 | RSI_Strategy buys at bar t exactly when flat and RSI < 30, and sells exactly when long and RSI > 70; an undefined RSI triggers neither |
| Strategy.AlternatingCounts | strategy.py:6-10 | in an alternating order list, buys minus sells is 0 for an even length and ±1 (the sign of the first order) for an odd one |
| Strategy.RsiBalanced | strategy.py:6-10 | RSI_Strategy's orders satisfy #SELL <= #BUY <= #SELL + 1 |
| Strategy.CrossSignals | strategy.py:16-20 | SMA_CrossStrategy buys exactly at a strict upward cross (sma1 > sma2 now, sma1 < sma2 one bar back) and sells exactly at a strict downward cross, whatever its position |
| Strategy.CrossState | strategy.py:16-20 | with lines of equal length that stay defined once both are defined and never tie where both are defined, the orders alternate and the last order agrees with which line is above at the last bar |
| Strategy.CrossAlternates | strategy.py:16-20 | with lines of equal length that stay defined once both are defined and never tie where both are defined, SMA_CrossStrategy's orders alternate and its position stays within one unit of flat |
| Strategy.Strategy.constructor | strategy.py:3-15 | a fresh strategy of either class (`RSI_Strategy` or `SMA_CrossStrategy`) is flat with no orders |
| Strategy.Strategy.Buy | strategy.py:8 | `buy()` adds one unit and records the order |
| Strategy.Strategy.Sell | strategy.py:10 | `sell()` removes one unit and records the order |
| Strategy.Strategy.Next | strategy.py:6-20 | one call of `next()` of either class at bar t performs exactly the step of the rule's replay |
| Strategy.Backtest | strategy.py:29-30 | running `next()` on every bar in order yields exactly the orders of the replay |
| Strategy.StrategyFor | strategy.py:25-28 | "RSI Strategy" selects RSI_Strategy, "SMA Crossover" selects SMA_CrossStrategy, and every other name selects none |
| Strategy.RunBacktest | strategy.py:22-31 | "RSI Strategy" runs RSI_Strategy on the RSI line, "SMA Crossover" runs SMA_CrossStrategy on the 20- and 50-bar SMAs, and any other name adds no strategy and places no order |
| App.StripLeading | app.py:26 | `lstrip` never lengthens a string and leaves no leading whitespace |
| App.StripTrailing | app.py:26 | `rstrip` never lengthens a string and leaves no trailing whitespace |
| App.Strip | app.py:26 | `strip` never lengthens a string and leaves no whitespace at either end |
| App.Upper | app.py:26 | `upper` keeps the length |
| App.Join | app.py:26 | joining n >= 1 separator-free parts puts exactly n - 1 separators in the result |
| App.ParseField | app.py:26 | a parsed symbol is no longer than its field and has no whitespace at either end |
| App.ParseSymbols | app.py:26 | the symbol list has one entry per comma plus one |
| App.Split | app.py:26 | splitting on a separator always gives at least one field |
| App.SplitFields | app.py:26 | there is one field per separator plus one, and no field contains the separator |
| App.JoinSplit | app.py:26 | joining the fields with the separator gives back the input |
| App.SplitJoin | app.py:26 | splitting the join of one or more separator-free parts gives the parts back |
| App.StripLeadingRemovesSpaces | app.py:26 | `lstrip` removes exactly a whitespace prefix and stops at a non-space |
| App.StripTrailingRemovesSpaces | app.py:26 | `rstrip` removes exactly a whitespace suffix and stops at a non-space |
| App.StripTrims | app.py:26 | `strip` keeps the middle of the string between a whitespace prefix and suffix, and that middle has no whitespace at either end |
| App.UpperHasNoLowercase | app.py:26 | `upper` leaves no lower-case letter |
| App.ParsedField | app.py:26 | a parsed symbol has no surrounding whitespace and no lower-case letter, contains no comma if its field had none, and parsing it again changes nothing |
| App.ParsedSymbols | app.py:26 | the symbol list has one entry per comma-separated field, in input order (length = #commas + 1), each stripped, upper-case and comma-free |
| App.ParseKeepsEmptyFields | app.py:26 | "A,,B" parses to "A", "", "B", and "" parses to one empty symbol |
| App.ParseDefaultInput | app.py:10 | the default input "AAPL, MSFT" parses to AAPL and MSFT |
| App.ParseIdempotent | app.py:26 | joining the parsed list with "," and parsing again gives the same list |
| App.ApplyIndicators | app.py:33-40 | the table's columns after the four guarded `add_*` calls are those of the pipeline, and Close is unchanged |
| App.AddedColumnsByOption | app.py:33-40 | RSI adds `RSI`, Bollinger Bands adds both band columns, SMA adds `SMA_20`, EMA adds `EMA_20`, and nothing else adds a column |
| App.RsiStage | app.py:34 | the RSI stage adds the `RSI` column exactly when RSI is selected |
| App.BandsStage | app.py:35-36 | the Bollinger stage adds both band columns exactly when Bollinger Bands is selected |
| App.SmaStage | app.py:37-38 | the SMA stage adds `SMA_20` exactly when SMA is selected |
| App.EmaStage | app.py:39-40 | the EMA stage adds `EMA_20` exactly when EMA is selected |
| App.PipelineColumns | app.py:33-40 | the pipeline leaves the original columns plus exactly the columns of the selected options |
| App.PipelineKeepsTable | app.py:33-40 | every column the selection does not add is unchanged, and the table stays consistent |
| App.PipelineValues | app.py:33-40 | each selected column holds its indicator: RSI over 14 bars, bands, SMA and EMA over 20 |
| App.PipelineDependsOnLabels | app.py:33-40 | only which of the four indicator labels are selected matters, not their order or repetition |
| App.PipelineIgnoresVolume | app.py:14-17 | ticking `Volume` adds and changes no column |
| App.FetchData | fetch_data.py:6-10 | a download that raises gives the provider error carrying the symbol and the exception's reason, an empty table gives the no-data error for the symbol, and otherwise the non-empty table is returned |
| App.AnalyzeSymbol | app.py:28-86 | a symbol's report names that symbol; it is an error report carrying the fetch failure exactly when fetching failed, and otherwise it holds the downloaded non-empty Close, its columns are the downloaded ones plus the selected indicator columns, and the table is consistent |
| App.AnalyzeOne | app.py:29-86 | processing one symbol gives its report, and a failure gives exactly one error report naming the symbol |
| App.Analyze | app.py:26-86 | one report per parsed symbol, in order; each depends only on its own symbol, and a failure on one symbol leaves the others' reports unaffected |

## Left out

- Streamlit widgets, matplotlib figures, the log-scale toggle and the CSV
  download (`app.py:6-23`, `app.py:42-83`). These are user interface and
  I/O: a report holds the table the plots and the CSV would be made from.
- The text of the error message `st.error` shows. The report keeps the symbol
  and the kind of failure instead.
- Exceptions raised while plotting or exporting. The model's failures are
  the provider's exception and the empty-result check.
- yfinance itself and the date range. The provider is the `download`
  parameter, one result per symbol.
- IEEE-754 arithmetic. Prices are `real`, and NaN and inf appear only as the
  explicit undefined entries and the RSI-100 case.
- Indicators.RollingStd: the square root is a parameter. `BandsOrdered` and
  `BandsOfConstant` assume only that it is a true square root, with no
  floating-point rounding.
- Indicators.Rsi, Indicators.Sma, Indicators.Ema and
  Indicators.BollingerBands require a window or span of at least 1. Smaller
  values are not modelled, and the dashboard only uses 14 and 20.
- App.Upper maps only the ASCII letters a-z. Full Unicode case mapping is not
  modelled. `App.IsSpace` does follow Python's whitespace set for `strip()`.
- Backtrader internals: its own RSI and SMA indicators (inputs here), order
  execution at the next bar's open, the broker and cash, sizing beyond one
  unit, and `cerebro.plot()`.
- The `set_index("Date")` feed construction in `run_backtest` is not
  modelled. The feed is the three indicator lines.
- `SMA_CrossStrategy` sells on a downward cross even when it holds nothing,
  so its position can go to -1, a short of one unit (`strategy.py:19-20`;
  `CrossSignals` and `CrossAlternates`).
- The strategy chosen in the "Select strategy" box (`app.py:19`) is
  connected to nothing,
  because the dashboard never calls `run_backtest`. `RunBacktest` models that
  function on its own.
