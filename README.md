# DEX liquidity simulator — constant-product pool model

This project models the computing core of a small DEX price-impact simulator.
The app fetches a token's pairs from a market-data service. It sums their USD
liquidity and builds a two-asset constant-product pool (x · y = k) from that
total and the quoted token price. It then simulates one trade against the pool
and reports the trade record, the percentage price change and an "N×" multiple.

All quantities are Dafny `real`s, so every identity holds exactly. The model
has three modules:

- `Curve` (curve.dfy): the pool as a value. `Pool` holds the two reserves and
  the constant `k`. `Valid` says both reserves are positive and their product
  is `k`. `Init`, `Price`, `Buy` and `Sell` follow the simulator's constructor
  and methods. `Buy` and `Sell` return a `Step`: the new pool and the
  `TradeResult` record, whose constructor is the record's `action` tag. The
  lemmas prove the curve's properties. A buy raises the price exactly when a
  positive USD amount is spent. A sell lowers it exactly when a positive token
  amount is sold. The payout is positive exactly then and always less than the
  reserve it comes from. A buy followed by a sell of the tokens received
  restores the pool and pays back the USD spent, and the same holds the other
  way round.
- `Simulator` (simulator.dfy): the `DEXSimulator` class as a Dafny class,
  `DexSimulator`. Its fields `reserveUsd`, `reserveToken` and `k` are
  overwritten in place. `Valid()` is the class invariant, and each method is
  proved to leave the fields where `Curve.Buy`/`Curve.Sell` put the pool.
- `App` (app.dfy): the pure helpers of the app component. `TotalLiquidity` is
  the `reduce` fold over the pairs, with a missing value counted as 0.
  `XFactor` is the display multiple. `Dispatch` and `SimulateTrade` are the
  sign-based choice between buy and sell in the trade handler. `SimulateTrade`
  allocates a fresh simulator and calls its methods, as the handler does.

Where other descriptions of this simulator disagree with the code, the model
follows the code:

- For 100000 USD at 0.01 USD per token, `k` is 50000 · 5000000 = 2.5e11, not
  2.5e8. A buy of 1000 USD then moves the price from 0.01 to 0.010404, a ratio
  of 1.0404, not about 1.0196.
- The liquidity total does not skip non-positive entries. It maps a missing
  or falsy `liquidity.usd` to 0 and adds every other value, negative ones
  included.

## Model

| member | source | states |
|---|---|---|
| Curve.Price | liquidity_simulator.py:112-114 | on a valid pool the price is positive, and the token reserve valued at that price equals the USD reserve |
| Curve.Init | liquidity_simulator.py:104-110 | the pool built from total liquidity L and price P is valid and has price exactly P; the USD reserve equals the token reserve's value at P, and the two together are worth L (an even split) |
| Curve.Buy | liquidity_simulator.py:116-136 | spending a USD amount keeps the pool on the curve with the same k; the USD reserve grows by the amount and the token reserve shrinks by the tokens received; tokens received stay below the old token reserve; the record is a buy carrying the amount spent, the old and new prices and their ratio |
| Curve.Sell | liquidity_simulator.py:138-158 | selling a token amount keeps the pool on the curve with the same k; the token reserve grows by the amount and the USD reserve shrinks by the USD received; USD received stays below the old USD reserve; the record is a sell carrying the amount sold, the old and new prices and their ratio |
| Curve.BuyRaisesPrice | liquidity_simulator.py:116-134 | for every admissible amount: new price > old price, ratio > 1 and tokens received > 0 each hold if and only if the amount is positive; the ratio is below 1 if and only if the amount is negative |
| Curve.SellLowersPrice | liquidity_simulator.py:138-156 | for every admissible amount: new price < old price, ratio < 1 and USD received > 0 each hold if and only if the amount is positive; the ratio is above 1 if and only if the amount is negative |
| Curve.BuyThenSell | liquidity_simulator.py:116-158 | selling the tokens a buy received restores both reserves exactly and pays out exactly the USD spent |
| Curve.SellThenBuy | liquidity_simulator.py:116-158 | buying with the USD a sell received restores both reserves exactly and returns exactly the tokens sold |
| Curve.ExampleInit | liquidity_simulator.py:104-110 | 100000 USD at 0.01 USD per token gives reserves of 50000 USD and 5000000 tokens, with k = 2.5e11 |
| Simulator.DexSimulator.constructor | liquidity_simulator.py:104-110 | the new object satisfies the invariant, its fields are the pool of Curve.Init, reserveUsd is half the liquidity, its price is the quoted price, and the symbols are stored |
| Simulator.DexSimulator.GetPrice | liquidity_simulator.py:112-114 | the price read from the fields is the curve price of the current state, and is positive |
| Simulator.DexSimulator.SimulateBuy | liquidity_simulator.py:116-136 | keeps the invariant and k; the fields become the pool of Curve.Buy and the result is its record; for a positive amount the price rises, the ratio exceeds 1 and 0 < tokens received < old token reserve |
| Simulator.DexSimulator.SimulateSell | liquidity_simulator.py:138-158 | keeps the invariant and k; the fields become the pool of Curve.Sell and the result is its record; for a positive amount the price falls, the ratio is below 1 and 0 < USD received < old USD reserve |
| Simulator.RoundTrip | liquidity_simulator.py:116-158 | on one object, a buy followed by a sell of the tokens received leaves both reserve fields as they were and pays out the USD spent |
| App.TotalLiquidity | liquidity_simulator.py:61-63 | the total is non-negative when every pair's value is, and 0 when every pair's value is missing |
| App.TotalLiquidityAppend | liquidity_simulator.py:61-63 | the total over two lists of pairs joined together is the sum of their totals |
| App.TotalLiquidityIsSumOfPresent | liquidity_simulator.py:61-63 | counting a missing value as 0 gives the same total as summing only the values that are present |
| App.XFactor | liquidity_simulator.py:161-163 | the ratio itself when it is at least 1, otherwise the x with x · ratio = −1; for a positive ratio the result is never in (−1, 1), and it is at least 1 exactly when the ratio is |
| App.XFactorInvolutive | liquidity_simulator.py:161-163 | for a positive ratio, applying the rule to its x-factor gives the ratio back, so the figure determines the ratio |
| App.XFactorOfInverse | liquidity_simulator.py:161-163 | for a positive ratio other than 1, the inverse ratio has the opposite x-factor |
| App.Dispatch | liquidity_simulator.py:90-95 | a positive amount is a buy spending that amount; any other amount is a sell of minus the amount; 0 leaves the pool unchanged; the pool stays valid with the same k |
| App.DispatchFollowsSign | liquidity_simulator.py:90-97 | the ratio is above 1, below 1 or exactly 1 according as the amount is positive, negative or zero |
| App.SimulateTrade | liquidity_simulator.py:80-101 | without token data it fails with "Please fetch token data first."; otherwise the record is the dispatched trade on the initial pool, the ratio is positive, priceChange is (ratio − 1) · 100 and has the amount's sign, and xFactor is XFactor(ratio) |

## Left out

- Floating point. The source runs on IEEE doubles, and the model uses exact reals. Rounding, `NaN` and `Infinity` are not modelled.
- Simulator.DexSimulator.constructor: requires positive liquidity and price. The source does not check them, and a zero price gives `Infinity` reserves.
- Simulator.DexSimulator.SimulateBuy: requires `reserveUsd + usdAmount > 0`. The source does not check this. Outside it, JavaScript divides by zero or produces negative reserves. The app only ever passes a positive amount.
- Simulator.DexSimulator.SimulateSell: requires `reserveToken + tokenAmount > 0`. The source does not check this. The app only ever passes a non-negative amount.
- App.XFactor: requires a non-zero ratio. For a ratio of 0 the source returns `-Infinity`. A ratio produced by a trade is always positive.
- App.SimulateTrade: requires positive liquidity and price in the token data, for the constructor's reason. It returns the simulation instead of storing it in React state through `setSimulationResult`/`setError`. It keeps the trade record as a field rather than spreading it into one object.
- `parseFloat` of the entered amount and of the pair fields. Amounts enter as reals. A non-numeric entry, which gives `NaN` in the source, is not modelled.
- `getPairs`, the HTTP request to the market-data service (lines 50-59). This is network I/O.
- `getTokenData`, which picks the price and symbol from the first pair (lines 65-78). This is orchestration around that I/O.
- React state hooks, event handlers and JSX rendering (lines 43-48, 169-211). This is UI.
- `formatPrice` and the `toFixed` formatting. This is display formatting.
- The package manifest, the stylesheet and the HTML page bundled in the same file. These are configuration and markup.
