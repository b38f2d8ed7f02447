/** Units and the static per-chain USD price of the native currency. */
module Pricing {

  /** Wei in one gwei and in one ether. */
  const WeiPerGwei: nat := 1_000_000_000
  const WeiPerEther: nat := 1_000_000_000_000_000_000

  /** Gas assumed when estimation fails: the cost of a plain transfer. */
  const FallbackGas: nat := 21000

  /** Gas price assumed when the price fetch fails: `to_wei(20, 'gwei')`. */
  const FallbackGasPriceWei: nat := 20 * WeiPerGwei

  /** `_get_eth_price`: the USD price of one unit of the chain's native
      currency, from a fixed table with a default of 3000. Polygon's 1.0 is
      the integer 1; every entry is a whole number of dollars. */
  function EthPriceUsd(chainId: int): (p: nat)
    ensures p > 0
    ensures p == 600 <==> chainId == 56
    ensures p == 1 <==> chainId == 137
    ensures p == 40 <==> chainId == 43114
    ensures p == 3000 <==> chainId !in {56, 137, 43114}
  {
    var prices := map[1 := 3000, 10 := 3000, 56 := 600, 137 := 1, 42161 := 3000, 8453 := 3000, 43114 := 40];
    if chainId in prices then prices[chainId] else 3000
  }

  /** The gas cost in wei of a call: estimate times price, exactly. */
  function GasCostWei(gasUsed: nat, gasPriceWei: nat): nat
  {
    gasUsed * gasPriceWei
  }

  /** The USD gas cost scaled by 10^18, so that `gas_cost_usd` is
      `GasCostUsdScaled(...) / 10^18` without rounding. */
  function GasCostUsdScaled(gasCostWei: nat, usdPrice: nat): nat
  {
    gasCostWei * usdPrice
  }

  /** `gas_cost_usd > dollars`, decided exactly on the scaled cost. */
  predicate CostAbove(usdScaled: nat, dollars: nat)
  {
    usdScaled > dollars * WeiPerEther
  }

  /** A cost above a higher threshold is above every lower one: a call past
      the 50 USD mark is past the 10 USD mark too. */
  lemma CostAboveMonotone(usdScaled: nat, lower: nat, higher: nat)
    requires lower <= higher
    ensures CostAbove(usdScaled, higher) ==> CostAbove(usdScaled, lower)
  {
    assert lower * WeiPerEther <= higher * WeiPerEther;
  }

  /** With both fallbacks (21000 gas at 20 gwei) a call costs 0.00042 of the
      native unit, which stays under the 10 USD mark on every chain. */
  lemma FallbackCostBelowWarning(chainId: int)
    ensures GasCostWei(FallbackGas, FallbackGasPriceWei) == 420_000_000_000_000
    ensures !CostAbove(GasCostUsdScaled(GasCostWei(FallbackGas, FallbackGasPriceWei), EthPriceUsd(chainId)), 10)
  {
  }
}
