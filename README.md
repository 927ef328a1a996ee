# Trading strategies on backtrader: a Dafny model of the decision logic

The repository holds four variants of one backtrader strategy class,
`MyStrategy`, plus a driver that replays one of them over several date
windows. Indicators, fills, commission and profit accounting all live inside
the backtrader library; what the repository's own code decides, and what this
model covers, is:

- the pending-order gate: `next` does nothing while `self.order` holds an
  order, and `notify_order` forgets that order on every status except
  Submitted and Accepted, recording price and commission of a completed buy;
- the entry and exit signals, each a boolean combination of the current close
  and the current indicator values, evaluated only on the side the position
  selects (buy when flat, sell when holding);
- the order size: `int(x * 0.9 // close)` of free cash (`pruebas/pruebas.py`)
  or of portfolio value (`EstrategiaBotFinal.py`, `strategy.py`), the whole
  position on exit, and the sizer's fixed stake of 100 in `st1.py`;
- the On-Balance-Volume accumulator that `st1.py` keeps itself, updated on
  every bar before the pending-order check;
- the window loop of `run_strategy` in `pruebas/pruebas.py`: cash reset to
  1000 per window, one portfolio value per window and the "cash rest" rule.

Modules: `Market` (the library boundary: orders, statuses, notices, the three
tracking fields and `notify_order`'s effect on them, Python's float floor
division), `Bands` (the bar snapshot and the signal shapes the three Bollinger
variants share, each with its own thresholds), and one module per source file
(`Pruebas`, `EstrategiaBotFinal`, `Strategy`, `St1`), each with its class
`MyStrategy` whose fields are the source's `order`, `buyprice`, `buycomm`
(and `obv` in `St1`), and a function `Decide` that specifies what `next` does.
The library appears only as inputs: the bar's close and indicator values, the
position size, the broker's cash and value, the notice handed to
`notify_order`, whether a `buy`/`sell` call hands back an order, and, for the
driver, a function standing for one backtest run.

Where the general description of the engine and the code differ, the model
follows the code: a buy whose size comes out as 0 is still requested from the
library (what the library does with it is outside the model), and two of the
three sizing variants use portfolio value, not cash.

## Model

| member | source | states |
|---|---|---|
| `Market.Notify` | pruebas/pruebas.py:40-69 | Submitted/Accepted leave the tracking fields unchanged; every other status clears the pending order; a completed buy records executed price and commission, anything else leaves them; price and commission stay recorded together |
| `Market.NotifyIdempotent` | pruebas/pruebas.py:40-69 | hearing the same notice twice has the effect of hearing it once |
| `Market.NotifyNeverPends` | pruebas/pruebas.py:61-69 | no sequence of notices makes an order pending again: only `next` sets it |
| `Market.FloorDiv` | pruebas/pruebas.py:96 | Python's `int(x // y)` on floats: fails exactly when `y` is zero, otherwise the integer `n` with `n <= x / y < n + 1` |
| `Market.FundedSize` | pruebas/pruebas.py:95-96 | for a positive close, the size is the largest whole number of shares whose cost fits in 0.9 of the funds (`n*close <= 0.9*funds < (n+1)*close`), non-negative when the funds are; a zero close is a division by zero |
| `Pruebas.Decide` | pruebas/pruebas.py:77-102 | pending order: nothing; flat: an action exactly when `close < bot and (rsi < 30 or macd > signal)`, a buy sized from cash as above; holding: an action exactly when `close > top and (rsi > 70 or not macd > signal)`, a sell of the whole position; buy iff flat; division by zero only when the buy fires at a zero close |
| `Pruebas.MyStrategy.constructor` | pruebas/pruebas.py:29-32 | `order`, `buyprice`, `buycomm` start as `None` |
| `Pruebas.MyStrategy.Next` | pruebas/pruebas.py:77-102 | returns `Decide` on the pending flag before the call; `order` takes the library's answer to a request and is otherwise untouched; buy price and commission are not written |
| `Pruebas.MyStrategy.NotifyOrder` | pruebas/pruebas.py:40-69 | the tracking fields become `Notify` of their old values |
| `Pruebas.CashRest` | pruebas/pruebas.py:153-159 | the reported cash rest is zero exactly when value equals cash (or the cash is zero), and the cash otherwise |
| `Pruebas.RunWindows` | pruebas/pruebas.py:137-159 | one portfolio entry and one cash-rest entry per (from, until) pair, in order; entry `i` is the value of a run over window `i` started from 1000 in cash, and its cash rest follows `CashRest` |
| `Pruebas.RunStrategy` | pruebas/pruebas.py:129-159 | the seven configured windows give seven entries, the first for 1995-12-30 to 2000-12-30 and the last for 2004-12-30 to 2014-12-30 |
| `EstrategiaBotFinal.Decide` | EstrategiaBotFinal.py:66-89 | as for `pruebas`, with thresholds 35/65 and the buy sized from portfolio value: `n*close <= 0.9*value < (n+1)*close` |
| `EstrategiaBotFinal.MyStrategy.constructor` | EstrategiaBotFinal.py:26-29 | `order`, `buyprice`, `buycomm` start as `None` |
| `EstrategiaBotFinal.MyStrategy.Next` | EstrategiaBotFinal.py:66-89 | returns `Decide` on the pending flag before the call; `order` takes the library's answer to a request and is otherwise untouched |
| `EstrategiaBotFinal.MyStrategy.NotifyOrder` | EstrategiaBotFinal.py:34-58 | the tracking fields become `Notify` of their old values |
| `EstrategiaBotFinal.WidensPruebas` | EstrategiaBotFinal.py:75-85 | when value equals cash, whenever the 30/70 strategy acts this one does the same thing: the 35/65 thresholds only widen both signals |
| `Strategy.Decide` | strategy.py:42-69 | as for `EstrategiaBotFinal.py`: thresholds 35/65, buy sized from portfolio value, exit sells the whole position, nothing while an order is pending |
| `Strategy.MyStrategy.constructor` | strategy.py:15-22 | `order`, `buyprice`, `buycomm` start as `None` |
| `Strategy.MyStrategy.Next` | strategy.py:42-69 | returns `Decide` on the pending flag before the call; `order` takes the library's answer to a request and is otherwise untouched |
| `Strategy.MyStrategy.NotifyOrder` | strategy.py:78-102 | the tracking fields become `Notify` of their old values |
| `Strategy.SameRuleAsBotFinal` | strategy.py:53-69 | the file decides exactly as `EstrategiaBotFinal.py` on every input |
| `St1.Decide` | st1.py:93-114 | pending order: nothing; flat: a buy of the stake exactly when `(short_wma > long_wma and obv > 0) or (close < bot and rsi < 30)`; holding: a sell of the stake exactly when `(short_wma < long_wma and obv < 0) or (close > top and rsi > 70)`; every order is 100 shares |
| `St1.MyStrategy.constructor` | st1.py:34-41 | tracking fields start as `None`, the accumulator at 0 with no bars seen |
| `St1.MyStrategy.Next` | st1.py:81-114 | the accumulator moves by this bar's step on every call, pending order or not, and stays equal to the accumulation over all bars seen; the result is `Decide` on the updated accumulator; `order` takes the library's answer to a request |
| `St1.MyStrategy.NotifyOrder` | st1.py:48-73 | the tracking fields become `Notify` of their old values; the accumulator is untouched |
| `St1.ObvConcat` | st1.py:82-85 | the accumulation over two consecutive stretches of bars is the sum of the accumulations over each |
| `St1.ObvSplit` | st1.py:82-85 | the accumulator equals the volume of bars that closed higher minus the volume of bars that closed lower; level closes add nothing |
| `St1.ObvBounded` | st1.py:82-85 | with non-negative volumes the accumulator stays within plus or minus the total volume seen |
| `St1.RisingRunPositive` | st1.py:82-83 | a non-empty run of rising bars with positive volume leaves a positive accumulator |
| `St1.TrendBuys` | st1.py:82-104 | a flat strategy with no pending order and the short average above the long one buys on a rising bar with volume when the accumulator it carried in was not negative |

## Left out

- Indicator formulas (Bollinger bands, RSI, MACD, WMA, SMA): computed by the library, which is not part of this model; their current values are inputs.
- Broker accounting: fills, commission of 0.001, cash and position updates, trade profit (`pnl`, `pnlcomm`) happen inside the library; position size, cash and portfolio value are inputs, and one backtest run is an abstract function in the driver.
- What `buy`/`sell` hand back (an order or none, for example for a size of 0) is decided by library code; the model takes it as the parameter `returned`.
- Library warm-up: `next` runs only once every indicator has enough history, so the model assumes it is called on such bars; the accumulator in `st1.py` therefore only covers the bars `next` has seen.
- Logging (`log`, the `print` calls and the final report loop at pruebas/pruebas.py:162-163), `stop`, `notify_trade` and plotting: output only.
- `main.py` and `data.py`: feed construction and library wiring.
- Dead values: `sma_buy`, `sma_short`, `sma_long`, `datavolume` in the Bollinger variants and `bar_executed`.
- Market.FundedSize: uses exact real arithmetic for `* 0.9` and `//`, not IEEE doubles, so rounding at the edge of a whole share is not modelled.
- Pruebas.RunWindows: compares and reports unrounded values, where the source rounds both to two decimals before comparing; it requires at least as many end dates as start dates, where the source would stop with `IndexError`.
