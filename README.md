# Simple-moving-average crossover strategy, modelled in Dafny

The repository is a single zipline backtest script, `sma_test_zipline.py`. Its logic lives in two
callbacks. `initialize` sets up the strategy's state: a bar counter `time = 0` and a position flag
`has_position = False`. `handle_data` runs once per daily bar. It advances the counter and stays
silent for the first `MA_PERIODS - 1` bars (warm-up). After that it takes the last `MA_PERIODS`
prices and their arithmetic mean. It buys up to `N_STOCKS_TO_BUY` shares when the previous price is
below the mean, the latest price is above it, and no position is held. It sells down to zero when
the previous price is above the mean, the latest is below it, and a position is held. Every bar past
warm-up records the current price and the mean.

The model has two modules:

- `SmaCrossover` (`sma_crossover.dfy`) holds the constants (`MA_PERIODS = 20`, `N_STOCKS_TO_BUY = 20`).
  It defines the mean of a window (`Sum`, `Mean`) and one bar as a pure function, `Step`. The
  script's `context` object is the class `Context`, with fields `time` and `hasPosition`.
  `Context.HandleData` takes the price window and the current price as parameters. It updates the
  two fields in place and returns the order target (`Option<int>`) and the record
  (`Option<Record>`). It is proved equal to `Step`. Lemmas about `Step` state the per-bar rules.
- `CrossoverRuns` (`crossover_runs.dfy`) applies `Step` to a whole sequence of bars (`Run`). It proves
  what holds over a backtest: warm-up happens at the start, and order targets strictly alternate.

Comparisons are strict, as in the source, so a price equal to the mean never triggers an order.
Prices and the mean are Dafny `real` numbers.

## Model

| member | source | states |
|---|---|---|
| SmaCrossover.Context.constructor | sma_test_zipline.py:10-14 | a new context is at bar 0 and flat (`time == 0`, `hasPosition == false`) |
| SmaCrossover.Context.HandleData | sma_test_zipline.py:16-34 | advances `time` by one; in warm-up returns no order and no record and keeps the position; otherwise records the current price with the window mean; orders `N_STOCKS_TO_BUY` iff it was flat and the window crosses up; orders 0 iff it was long and the window crosses down; the flag flips exactly when an order is placed; the whole new state and outputs equal `Step` of the old state |
| SmaCrossover.Mean | sma_test_zipline.py:22 | the moving average times the window length is the sum of the window's prices |
| SmaCrossover.SumBounds | sma_test_zipline.py:22 | the sum of n prices, each between lo and hi, lies between n·lo and n·hi |
| SmaCrossover.SumAppend | sma_test_zipline.py:22 | appending a price to a window adds it to the sum |
| SmaCrossover.MeanBounds | sma_test_zipline.py:22 | the mean of prices between lo and hi lies between lo and hi |
| SmaCrossover.MeanOfConstant | sma_test_zipline.py:22 | the mean of a window of equal prices is that price |
| SmaCrossover.Step | sma_test_zipline.py:17 | every bar, warm-up or not, increments the counter by exactly one |
| SmaCrossover.StepRules | sma_test_zipline.py:17-34 | in warm-up a bar places no order, records nothing and keeps the position; past warm-up it records exactly the current price and the window's mean; it orders `N_STOCKS_TO_BUY` iff past warm-up, flat, previous price < mean and latest price > mean; it orders 0 iff past warm-up, long, previous price > mean and latest price < mean; at most one order, its target set by the old position, and the flag changes iff an order is placed |
| SmaCrossover.TieMeansNoOrder | sma_test_zipline.py:25-31 | a previous or latest price equal to the mean places no order and keeps the position |
| SmaCrossover.FlatWindowNoOrder | sma_test_zipline.py:22-31 | a window of all-equal prices never places an order |
| SmaCrossover.OrderDirection | sma_test_zipline.py:25-31 | an entry implies the latest price is above the previous one; an exit implies it is below |
| SmaCrossover.JumpWindowEnters | sma_test_zipline.py:22-27 | nineteen prices of 1.0 then 5.0 have mean 1.2, and a flat strategy past warm-up enters on that window |
| CrossoverRuns.Run | sma_test_zipline.py:16-34 | running the bar rule over n bars yields n outputs and advances the counter by n |
| CrossoverRuns.AlternationAt | sma_test_zipline.py:25-31 | the i-th target of the alternating sequence is `N_STOCKS_TO_BUY` or 0 by the parity of i and the starting position |
| CrossoverRuns.RunOrdersAlternate | sma_test_zipline.py:25-31 | over any run the order targets alternate, starting with the one the starting position allows, and the run ends long iff the start was flipped an odd number of times |
| CrossoverRuns.FromInitialOrdersAlternate | sma_test_zipline.py:14-31 | from the initial state the targets go `N_STOCKS_TO_BUY, 0, N_STOCKS_TO_BUY, …`, and no two consecutive targets are equal |
| CrossoverRuns.RunWarmUp | sma_test_zipline.py:17-34 | bar i of a run is silent iff the counter it reaches is below `MA_PERIODS`; otherwise it records its current price with its window's mean |
| CrossoverRuns.FromInitialWarmUp | sma_test_zipline.py:11-19 | from the initial state, bar i records iff i ≥ `MA_PERIODS - 1`, and the earlier bars place no order |

## Left out

- The `%%zipline` cell magic and the backtest dates and capital (line 1): notebook and framework configuration.
- `symbol(SELECTED_STOCK)` and `set_commission` (lines 12-13): calls into zipline's asset lookup and commission model, which are not part of this model; the asset is therefore not a field of `Context`.
- `data.history` and `data.current` (lines 21, 33): framework data retrieval. The window and the current price are parameters of `HandleData`, and its precondition says the window has `MA_PERIODS` prices, as `bar_count=MA_PERIODS` guarantees.
- The link between the current price and the window: with daily bars, `data.current` at line 33 is the last value of the daily history at line 21. The model takes `current` as a separate input and does not require it to equal the window's last price. No property proved here depends on that equality.
- The effects of `order_target` and `record` (lines 26, 30, 33): order execution, fills, portfolio accounting and telemetry belong to zipline. The model returns the target and the record as values.
- Floating-point rounding of `price_history.mean()`: prices and the mean are `real`.
- Missing prices (NaN): the model has none. `Mean` averages all `MA_PERIODS` prices of the window, while the pandas mean at line 22 skips NaN values and averages only the others. So a window with NaN prices, such as leading NaNs before the asset's first trade, can still have a finite mean. If neither of the last two prices is NaN, lines 25 and 29 can then still place an order. The comparisons are all false only when one of the last two prices is NaN or the whole window is NaN.
- Input and configuration validation: the script does none, so the model adds none. It has no rejection of non-finite prices and no configurable period; the warm-up uses the bar counter, as the code does.
- The engine that calls `handle_data` once per bar is not part of this model. `CrossoverRuns.Run` stands for that sequence of calls.
