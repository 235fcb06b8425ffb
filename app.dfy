/** The computing parts of the app around the simulator: the total USD
    liquidity of a token's pairs, the choice between a buy and a sell from
    the sign of the one amount the user enters, and the "N x" multiple shown
    beside the price change. */
module App {
  import Curve
  import Simulator

  datatype Option<T> = None | Some(value: T)

  datatype Result<T> = Ok(value: T) | Err(message: string)

  /** One pair record of the market-data feed, reduced to what the total
      reads from it: its USD liquidity, or None when the record has no
      usable value there (no `liquidity`, no `liquidity.usd`, or a falsy one). */
  datatype Pair = Pair(liquidityUsd: Option<real>)

  /** The token data the simulation starts from. */
  datatype TokenData = TokenData(totalLiquidity: real, tokenPrice: real, tokenSymbol: string)

  /** The trade record together with the two figures derived from it for display. */
  datatype Simulation = Simulation(result: Curve.TradeResult, priceChange: real, xFactor: real)

  /** What one pair adds to the total: its USD liquidity, or 0 when missing. */
  function LiquidityOf(pair: Pair): real {
    match pair.liquidityUsd
    case None => 0.0
    case Some(usd) => usd
  }

  /** Sum of the pairs' USD liquidity, folded from the left and starting
      from 0 as `reduce` does. */
  function TotalLiquidity(pairs: seq<Pair>): (total: real)
    ensures (forall i :: 0 <= i < |pairs| ==> LiquidityOf(pairs[i]) >= 0.0) ==> total >= 0.0
    ensures (forall i :: 0 <= i < |pairs| ==> pairs[i].liquidityUsd.None?) ==> total == 0.0
  {
    if pairs == [] then 0.0
    else TotalLiquidity(pairs[..|pairs| - 1]) + LiquidityOf(pairs[|pairs| - 1])
  }

  /** The liquidity values that are present, in order. */
  function Present(pairs: seq<Pair>): seq<real> {
    if pairs == [] then []
    else (match pairs[0].liquidityUsd
          case None => []
          case Some(usd) => [usd]) + Present(pairs[1..])
  }

  /** Sum of a sequence, from the front. */
  function Sum(xs: seq<real>): real {
    if xs == [] then 0.0 else xs[0] + Sum(xs[1..])
  }

  /** The total over a concatenation is the sum of the two totals. */
  lemma {:induction false} TotalLiquidityAppend(a: seq<Pair>, b: seq<Pair>)
    ensures TotalLiquidity(a + b) == TotalLiquidity(a) + TotalLiquidity(b)
  {
    if b != [] {
      var b' := b[..|b| - 1];
      assert (a + b)[..|a + b| - 1] == a + b';
      assert (a + b)[|a + b| - 1] == b[|b| - 1];
      TotalLiquidityAppend(a, b');
    } else {
      assert a + b == a;
    }
  }

  /** Counting a missing value as 0 is the same as leaving that pair out:
      the total is the plain sum of the values that are present. */
  lemma {:induction false} TotalLiquidityIsSumOfPresent(pairs: seq<Pair>)
    ensures TotalLiquidity(pairs) == Sum(Present(pairs))
  {
    if pairs != [] {
      var head, rest := [pairs[0]], pairs[1..];
      assert pairs == head + rest;
      TotalLiquidityAppend(head, rest);
      assert head[..0] == [];
      assert TotalLiquidity(head) == LiquidityOf(pairs[0]);
      TotalLiquidityIsSumOfPresent(rest);
      match pairs[0].liquidityUsd
      case None =>
        assert Present(pairs) == [] + Present(rest);
        assert [] + Present(rest) == Present(rest);
      case Some(usd) =>
        assert Present(pairs) == [usd] + Present(rest);
        assert ([usd] + Present(rest))[1..] == Present(rest);
    }
  }

  /** The "N x" figure for a price-change ratio: the ratio itself for a
      rise, minus the inverse ratio for a fall. */
  function XFactor(priceChangeRatio: real): (x: real)
    requires priceChangeRatio != 0.0
    ensures priceChangeRatio >= 1.0 ==> x == priceChangeRatio
    ensures priceChangeRatio < 1.0 ==> x * priceChangeRatio == -1.0
    ensures priceChangeRatio > 0.0 ==> x >= 1.0 || x <= -1.0
    ensures priceChangeRatio > 0.0 ==> (x >= 1.0 <==> priceChangeRatio >= 1.0)
  {
    if priceChangeRatio >= 1.0 then priceChangeRatio else -1.0 / priceChangeRatio
  }

  /** For a positive ratio the figure determines the ratio: applying the
      same rule to the figure gives the ratio back. */
  lemma XFactorInvolutive(priceChangeRatio: real)
    requires priceChangeRatio > 0.0
    ensures XFactor(priceChangeRatio) != 0.0
    ensures XFactor(XFactor(priceChangeRatio)) == priceChangeRatio
  {
  }

  /** A rise by some ratio and a fall by the inverse ratio show the same
      multiple with opposite signs. */
  lemma XFactorOfInverse(priceChangeRatio: real)
    requires priceChangeRatio > 0.0 && priceChangeRatio != 1.0
    ensures XFactor(1.0 / priceChangeRatio) == -XFactor(priceChangeRatio)
  {
  }

  /** The trade the entered amount asks for: a positive amount is a buy
      spending that many USD; any other amount is a sell of minus that many
      tokens, so 0 is a sell of nothing. */
  function Dispatch(p: Curve.Pool, amount: real): (s: Curve.Step)
    requires Curve.Valid(p)
    ensures Curve.Valid(s.pool) && s.pool.k == p.k
    ensures amount > 0.0 ==> s.result.BuyResult? && s.result.usdSpent == amount
    ensures amount <= 0.0 ==> s.result.SellResult? && s.result.tokensSpent == -amount
    ensures amount == 0.0 ==> s.pool == p
  {
    if amount > 0.0 then Curve.Buy(p, amount) else Curve.Sell(p, -amount)
  }

  /** The price moves in the direction of the amount's sign, and stays put
      for 0. */
  lemma DispatchFollowsSign(p: Curve.Pool, amount: real)
    requires Curve.Valid(p)
    ensures Dispatch(p, amount).result.priceChangeRatio > 1.0 <==> amount > 0.0
    ensures Dispatch(p, amount).result.priceChangeRatio < 1.0 <==> amount < 0.0
    ensures Dispatch(p, amount).result.priceChangeRatio == 1.0 <==> amount == 0.0
  {
    if amount > 0.0 {
      Curve.BuyRaisesPrice(p, amount);
    } else {
      Curve.SellLowersPrice(p, -amount);
    }
  }

  /** Runs one simulation as the app's trade button does: without token
      data it reports an error; otherwise it builds a fresh simulator from
      the data, buys or sells according to the sign of the amount, and
      derives the percentage change and the x-factor from the ratio. */
  method SimulateTrade(tokenData: Option<TokenData>, amount: real) returns (out: Result<Simulation>)
    requires tokenData.Some? ==> tokenData.value.totalLiquidity > 0.0 && tokenData.value.tokenPrice > 0.0
    ensures out.Err? <==> tokenData.None?
    ensures out.Err? ==> out.message == "Please fetch token data first."
    ensures out.Ok? ==>
              var pool := Curve.Init(tokenData.value.totalLiquidity, tokenData.value.tokenPrice);
              out.value.result == Dispatch(pool, amount).result
    ensures out.Ok? ==> out.value.priceChange == (out.value.result.priceChangeRatio - 1.0) * 100.0
    ensures out.Ok? ==> out.value.result.priceChangeRatio > 0.0
    ensures out.Ok? ==> out.value.xFactor == XFactor(out.value.result.priceChangeRatio)
    ensures out.Ok? ==> (out.value.priceChange > 0.0 <==> amount > 0.0)
    ensures out.Ok? ==> (out.value.priceChange < 0.0 <==> amount < 0.0)
  {
    if tokenData.None? {
      return Err("Please fetch token data first.");
    }
    var data := tokenData.value;
    var sim := new Simulator.DexSimulator(data.totalLiquidity, data.tokenPrice, data.tokenSymbol);
    DispatchFollowsSign(sim.State(), amount);

    var result;
    if amount > 0.0 {
      result := sim.SimulateBuy(amount);
    } else {
      result := sim.SimulateSell(-amount);
    }

    var priceChange := (result.priceChangeRatio - 1.0) * 100.0;
    var xFactor := XFactor(result.priceChangeRatio);
    out := Ok(Simulation(result, priceChange, xFactor));
  }
}
