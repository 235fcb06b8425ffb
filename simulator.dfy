/** The simulator object: a pool whose reserves are fields that a trade
    overwrites in place. Each method is proved to leave the fields exactly
    where the matching function of module Curve puts the pool, and to return
    the record that function returns. */
module Simulator {
  import Curve

  class DexSimulator {
    const tokenSymbol: string
    const baseSymbol: string
    var reserveUsd: real
    var reserveToken: real
    var k: real

    /** The fields read as a pool value of the curve model. */
    function State(): Curve.Pool
      reads this
    {
      Curve.Pool(reserveUsd, reserveToken, k)
    }

    /** Class invariant: both reserves positive and their product k. */
    ghost predicate Valid()
      reads this
    {
      Curve.Valid(State())
    }

    /** Splits the total liquidity evenly between the two reserves at the
        quoted price and fixes k as their product. */
    constructor (totalLiquidityUsd: real, tokenPrice: real, tokenSymbol: string)
      requires totalLiquidityUsd > 0.0 && tokenPrice > 0.0
      ensures Valid()
      ensures State() == Curve.Init(totalLiquidityUsd, tokenPrice)
      ensures reserveUsd == totalLiquidityUsd / 2.0 && reserveToken * tokenPrice == reserveUsd
      ensures GetPrice() == tokenPrice
      ensures this.tokenSymbol == tokenSymbol && baseSymbol == "USD"
    {
      var usd := totalLiquidityUsd / 2.0;
      var token := usd / tokenPrice;
      this.tokenSymbol := tokenSymbol;
      baseSymbol := "USD";
      reserveUsd := usd;
      reserveToken := token;
      k := usd * token;
    }

    /** Current unit price of the token in USD. */
    function GetPrice(): (price: real)
      reads this
      requires Valid()
      ensures price == Curve.Price(State())
      ensures price > 0.0
    {
      reserveUsd / reserveToken
    }

    /** Spends `usdAmount` USD against the pool. Buying with a positive
        amount raises the price and pays out part, never all, of the token
        reserve. */
    method SimulateBuy(usdAmount: real) returns (r: Curve.TradeResult)
      requires Valid() && reserveUsd + usdAmount > 0.0
      modifies this
      ensures Valid() && k == old(k)
      ensures State() == Curve.Buy(old(State()), usdAmount).pool
      ensures r == Curve.Buy(old(State()), usdAmount).result
      ensures reserveUsd == old(reserveUsd) + usdAmount
      ensures reserveToken == old(reserveToken) - r.tokensReceived
      ensures usdAmount > 0.0 ==>
                r.newPrice > r.oldPrice && r.priceChangeRatio > 1.0 &&
                0.0 < r.tokensReceived < old(reserveToken)
    {
      Curve.BuyRaisesPrice(State(), usdAmount);
      var oldPrice := GetPrice();
      var newReserveUsd := reserveUsd + usdAmount;
      var newReserveToken := k / newReserveUsd;
      var tokensOut := reserveToken - newReserveToken;

      reserveUsd := newReserveUsd;
      reserveToken := newReserveToken;

      var newPrice := GetPrice();
      var priceChangeRatio := newPrice / oldPrice;
      r := Curve.BuyResult(tokensOut, usdAmount, oldPrice, newPrice, priceChangeRatio);
    }

    /** Sells `tokenAmount` tokens to the pool. Selling a positive amount
        lowers the price and pays out part, never all, of the USD reserve. */
    method SimulateSell(tokenAmount: real) returns (r: Curve.TradeResult)
      requires Valid() && reserveToken + tokenAmount > 0.0
      modifies this
      ensures Valid() && k == old(k)
      ensures State() == Curve.Sell(old(State()), tokenAmount).pool
      ensures r == Curve.Sell(old(State()), tokenAmount).result
      ensures reserveToken == old(reserveToken) + tokenAmount
      ensures reserveUsd == old(reserveUsd) - r.usdReceived
      ensures tokenAmount > 0.0 ==>
                r.newPrice < r.oldPrice && r.priceChangeRatio < 1.0 &&
                0.0 < r.usdReceived < old(reserveUsd)
    {
      Curve.SellLowersPrice(State(), tokenAmount);
      var oldPrice := GetPrice();
      var newReserveToken := reserveToken + tokenAmount;
      var newReserveUsd := k / newReserveToken;
      var usdOut := reserveUsd - newReserveUsd;

      reserveUsd := newReserveUsd;
      reserveToken := newReserveToken;

      var newPrice := GetPrice();
      var priceChangeRatio := newPrice / oldPrice;
      r := Curve.SellResult(usdOut, tokenAmount, oldPrice, newPrice, priceChangeRatio);
    }
  }

  /** On one simulator, selling back the tokens a buy paid out puts both
      reserves back where they were and pays out the USD that was spent. */
  method RoundTrip(sim: DexSimulator, usdAmount: real) returns (bought: Curve.TradeResult, sold: Curve.TradeResult)
    requires sim.Valid() && usdAmount > 0.0
    modifies sim
    ensures sim.Valid()
    ensures sim.reserveUsd == old(sim.reserveUsd) && sim.reserveToken == old(sim.reserveToken)
    ensures bought.BuyResult? && bought.usdSpent == usdAmount
    ensures sold.SellResult? && sold.tokensSpent == bought.tokensReceived && sold.usdReceived == usdAmount
  {
    Curve.BuyThenSell(sim.State(), usdAmount);
    bought := sim.SimulateBuy(usdAmount);
    sold := sim.SimulateSell(bought.tokensReceived);
  }
}
