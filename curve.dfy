/** The constant-product (x * y = k) curve that the simulator moves along,
    stated on values: a pool is its two reserves and the constant k, and a
    trade maps the pool before it to the pool after it together with the
    record the simulator hands back to its caller. The class in
    simulator.dfy updates its fields in place and is proved against these
    functions. */
module Curve {

  /** The two reserves of the modelled pool and the product fixed at construction. */
  datatype Pool = Pool(reserveUsd: real, reserveToken: real, k: real)

  /** What a trade returns; the constructor is the record's `action` tag
      ("buy" or "sell"). */
  datatype TradeResult =
    | BuyResult(tokensReceived: real, usdSpent: real, oldPrice: real, newPrice: real, priceChangeRatio: real)
    | SellResult(usdReceived: real, tokensSpent: real, oldPrice: real, newPrice: real, priceChangeRatio: real)
  {
    function Action(): string {
      if BuyResult? then "buy" else "sell"
    }
  }

  /** The pool after a trade and the record the trade returned. */
  datatype Step = Step(pool: Pool, result: TradeResult)

  /** Both reserves are strictly positive and their product is k. */
  predicate Valid(p: Pool) {
    p.reserveUsd > 0.0 && p.reserveToken > 0.0 && p.reserveUsd * p.reserveToken == p.k
  }

  /** Unit price of the token in USD: what one token is worth against the pool. */
  function Price(p: Pool): (price: real)
    requires Valid(p)
    ensures price > 0.0
    ensures price * p.reserveToken == p.reserveUsd
  {
    p.reserveUsd / p.reserveToken
  }

  /** The pool built from the total USD liquidity and the quoted price: the
      liquidity is split evenly, half held as USD and half as tokens worth
      that much at the quoted price. */
  function Init(totalLiquidityUsd: real, tokenPrice: real): (p: Pool)
    requires totalLiquidityUsd > 0.0 && tokenPrice > 0.0
    ensures Valid(p)
    ensures Price(p) == tokenPrice
    ensures p.reserveUsd == p.reserveToken * tokenPrice
    ensures p.reserveUsd + p.reserveToken * tokenPrice == totalLiquidityUsd
  {
    var reserveUsd := totalLiquidityUsd / 2.0;
    var reserveToken := reserveUsd / tokenPrice;
    Pool(reserveUsd, reserveToken, reserveUsd * reserveToken)
  }

  /** Spending `usdAmount` USD: the USD reserve grows by the amount, the token
      reserve falls back onto the curve, and the difference is paid out. */
  function Buy(p: Pool, usdAmount: real): (s: Step)
    requires Valid(p) && p.reserveUsd + usdAmount > 0.0
    ensures Valid(s.pool) && s.pool.k == p.k
    ensures s.pool.reserveUsd == p.reserveUsd + usdAmount
    ensures s.result.BuyResult? && s.result.usdSpent == usdAmount
    ensures s.pool.reserveToken == p.reserveToken - s.result.tokensReceived
    ensures s.result.tokensReceived < p.reserveToken
    ensures s.result.oldPrice == Price(p) && s.result.newPrice == Price(s.pool)
    ensures s.result.priceChangeRatio * s.result.oldPrice == s.result.newPrice
  {
    var oldPrice := Price(p);
    var newReserveUsd := p.reserveUsd + usdAmount;
    var newReserveToken := p.k / newReserveUsd;
    var tokensOut := p.reserveToken - newReserveToken;
    var q := Pool(newReserveUsd, newReserveToken, p.k);
    var newPrice := Price(q);
    Step(q, BuyResult(tokensOut, usdAmount, oldPrice, newPrice, newPrice / oldPrice))
  }

  /** Selling `tokenAmount` tokens: the token reserve grows by the amount, the
      USD reserve falls back onto the curve, and the difference is paid out. */
  function Sell(p: Pool, tokenAmount: real): (s: Step)
    requires Valid(p) && p.reserveToken + tokenAmount > 0.0
    ensures Valid(s.pool) && s.pool.k == p.k
    ensures s.pool.reserveToken == p.reserveToken + tokenAmount
    ensures s.result.SellResult? && s.result.tokensSpent == tokenAmount
    ensures s.pool.reserveUsd == p.reserveUsd - s.result.usdReceived
    ensures s.result.usdReceived < p.reserveUsd
    ensures s.result.oldPrice == Price(p) && s.result.newPrice == Price(s.pool)
    ensures s.result.priceChangeRatio * s.result.oldPrice == s.result.newPrice
  {
    var oldPrice := Price(p);
    var newReserveToken := p.reserveToken + tokenAmount;
    var newReserveUsd := p.k / newReserveToken;
    var usdOut := p.reserveUsd - newReserveUsd;
    var q := Pool(newReserveUsd, newReserveToken, p.k);
    var newPrice := Price(q);
    Step(q, SellResult(usdOut, tokenAmount, oldPrice, newPrice, newPrice / oldPrice))
  }

  /** A buy raises the price exactly when USD is paid in, the ratio it
      reports is above 1 exactly then (and below 1 exactly when the amount is
      negative), and it pays out tokens exactly then. */
  lemma BuyRaisesPrice(p: Pool, usdAmount: real)
    requires Valid(p) && p.reserveUsd + usdAmount > 0.0
    ensures Buy(p, usdAmount).result.newPrice > Buy(p, usdAmount).result.oldPrice <==> usdAmount > 0.0
    ensures Buy(p, usdAmount).result.priceChangeRatio > 1.0 <==> usdAmount > 0.0
    ensures Buy(p, usdAmount).result.priceChangeRatio < 1.0 <==> usdAmount < 0.0
    ensures Buy(p, usdAmount).result.tokensReceived > 0.0 <==> usdAmount > 0.0
  {
    var s := Buy(p, usdAmount);
    MoveAlongCurve(p.reserveUsd, p.reserveToken, s.pool.reserveUsd, s.pool.reserveToken, p.k,
                   s.result.oldPrice, s.result.newPrice, s.result.priceChangeRatio);
  }

  /** A sell lowers the price exactly when tokens are paid in, the ratio it
      reports is below 1 exactly then (and above 1 exactly when the amount is
      negative), and it pays out USD exactly then. */
  lemma SellLowersPrice(p: Pool, tokenAmount: real)
    requires Valid(p) && p.reserveToken + tokenAmount > 0.0
    ensures Sell(p, tokenAmount).result.newPrice < Sell(p, tokenAmount).result.oldPrice <==> tokenAmount > 0.0
    ensures Sell(p, tokenAmount).result.priceChangeRatio < 1.0 <==> tokenAmount > 0.0
    ensures Sell(p, tokenAmount).result.priceChangeRatio > 1.0 <==> tokenAmount < 0.0
    ensures Sell(p, tokenAmount).result.usdReceived > 0.0 <==> tokenAmount > 0.0
  {
    var s := Sell(p, tokenAmount);
    MoveAlongCurve(p.reserveUsd, p.reserveToken, s.pool.reserveUsd, s.pool.reserveToken, p.k,
                   s.result.oldPrice, s.result.newPrice, s.result.priceChangeRatio);
  }

  /** Selling back exactly the tokens a buy paid out restores the pool and
      returns exactly the USD that was spent. */
  lemma BuyThenSell(p: Pool, usdAmount: real)
    requires Valid(p) && p.reserveUsd + usdAmount > 0.0
    ensures var b := Buy(p, usdAmount);
            b.pool.reserveToken + b.result.tokensReceived > 0.0 &&
            Sell(b.pool, b.result.tokensReceived).pool == p &&
            Sell(b.pool, b.result.tokensReceived).result.usdReceived == usdAmount
  {
  }

  /** Buying back with exactly the USD a sell paid out restores the pool and
      returns exactly the tokens that were sold. */
  lemma SellThenBuy(p: Pool, tokenAmount: real)
    requires Valid(p) && p.reserveToken + tokenAmount > 0.0
    ensures var s := Sell(p, tokenAmount);
            s.pool.reserveUsd + s.result.usdReceived > 0.0 &&
            Buy(s.pool, s.result.usdReceived).pool == p &&
            Buy(s.pool, s.result.usdReceived).result.tokensReceived == tokenAmount
  {
  }

  /** A pool built from 100000 USD at 0.01 USD per token holds 50000 USD
      and five million tokens. */
  lemma ExampleInit()
    ensures Init(100000.0, 0.01) == Pool(50000.0, 5000000.0, 250000000000.0)
  {
  }

  /** Moving from (x, y) to (x2, y2) on the curve x * y = k: the USD side
      grows exactly when the token side shrinks, and exactly then the price
      (USD per token) and the ratio of new to old price go up; and the other
      way round. */
  lemma MoveAlongCurve(x: real, y: real, x2: real, y2: real, k: real,
                       oldPrice: real, newPrice: real, ratio: real)
    requires x > 0.0 && y > 0.0 && x2 > 0.0 && y2 > 0.0
    requires x * y == k && x2 * y2 == k
    requires oldPrice * y == x && newPrice * y2 == x2 && ratio * oldPrice == newPrice
    ensures (x < x2 <==> y2 < y) && (x2 < x <==> y < y2)
    ensures (x < x2 <==> oldPrice < newPrice) && (x2 < x <==> newPrice < oldPrice)
    ensures (x < x2 <==> 1.0 < ratio) && (x2 < x <==> ratio < 1.0)
  {
    ProductOrder(x2, y2, x, y);
    ProductOrder(x, y, x2, y2);
    assert oldPrice > 0.0 && newPrice > 0.0;
    assert oldPrice * k == x * x by {
      assert oldPrice * k == (oldPrice * y) * x;
    }
    assert newPrice * k == x2 * x2 by {
      assert newPrice * k == (newPrice * y2) * x2;
    }
    SquareOrder(x2, x);
    SquareOrder(x, x2);
    ScaledOrder(newPrice, oldPrice, k);
    ScaledOrder(oldPrice, newPrice, k);
    ScaledOrder(ratio, 1.0, oldPrice);
    ScaledOrder(1.0, ratio, oldPrice);
  }

  /** Squaring keeps the order of positive reals. */
  lemma SquareOrder(a: real, b: real)
    requires a > 0.0 && b > 0.0
    ensures a * a > b * b <==> a > b
  {
  }

  /** Scaling by a positive factor keeps the order. */
  lemma ScaledOrder(x: real, y: real, c: real)
    requires c > 0.0
    ensures x * c > y * c <==> x > y
  {
  }

  /** Two factorisations of one positive product: the larger first factor
      goes with the smaller second one. */
  lemma ProductOrder(a: real, b: real, c: real, d: real)
    requires a > 0.0 && b > 0.0 && c > 0.0 && d > 0.0 && a * b == c * d
    ensures a > c <==> b < d
  {
  }
}
