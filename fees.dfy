/**
 * Wallet fee selection: the required fee rate, the minimum fee rate with
 * its override and fallback chain, and the fees they give for a
 * transaction size, capped by the maximum transaction fee.
 * Fee rates are satoshis per 1000 bytes (CFeeRate), amounts satoshis.
 */
module Fees {
  import opened Script

  /** A fee rate in satoshis per kilobyte; CFeeRate() is zero. */
  type FeeRate = int
  type Amount = int

  /** The wallet's fee settings: m_min_fee, m_pay_tx_fee and m_fallback_fee. */
  datatype Wallet = Wallet(minFee: FeeRate, payTxFee: FeeRate, fallbackFee: FeeRate)

  /** CCoinControl: fOverrideFeeRate and the optional m_feerate. */
  datatype CoinControl = CoinControl(overrideFeeRate: bool, feeRate: Option<FeeRate>)

  /**
   * The node-wide inputs: the minimum relay fee rate, the maximum
   * transaction fee, the mempool's fee estimate, and CFeeRate::GetFeeCeiling
   * as a function of a rate and a size in bytes.
   */
  datatype Node = Node(minRelayTxFee: FeeRate, maxTxFee: Amount, estimateFee: FeeRate,
                       feeCeiling: (FeeRate, nat) -> Amount)

  function Max(a: int, b: int): int {
    if a < b then b else a
  }

  /** GetRequiredFeeRate: the larger of the wallet's minimum and the relay minimum. */
  function GetRequiredFeeRate(wallet: Wallet, node: Node): (r: FeeRate)
    ensures r >= wallet.minFee && r >= node.minRelayTxFee
    ensures r == wallet.minFee || r == node.minRelayTxFee
  {
    Max(wallet.minFee, node.minRelayTxFee)
  }

  /** The rate asked for: the coin-control rate when overriding with one given, else the wallet's pay-tx-fee rate. */
  function ChosenFeeRate(wallet: Wallet, coinControl: CoinControl): (r: FeeRate)
    ensures coinControl.overrideFeeRate && coinControl.feeRate.Some? ==> r == coinControl.feeRate.value
    ensures !(coinControl.overrideFeeRate && coinControl.feeRate.Some?) ==> r == wallet.payTxFee
  {
    if coinControl.overrideFeeRate && coinControl.feeRate.Some? then coinControl.feeRate.value else wallet.payTxFee
  }

  /** A zero rate falls back to the mempool estimate, and a zero estimate to the wallet's fallback rate. */
  function WithFallback(wallet: Wallet, node: Node, chosen: FeeRate): (r: FeeRate)
    ensures chosen != 0 ==> r == chosen
    ensures chosen == 0 && node.estimateFee != 0 ==> r == node.estimateFee
    ensures chosen == 0 && node.estimateFee == 0 ==> r == wallet.fallbackFee
  {
    if chosen != 0 then chosen
    else if node.estimateFee != 0 then node.estimateFee
    else wallet.fallbackFee
  }

  /** GetMinimumFeeRate: the chosen rate after fallback, never below the required rate. */
  function GetMinimumFeeRate(wallet: Wallet, coinControl: CoinControl, node: Node): (r: FeeRate)
    ensures r >= GetRequiredFeeRate(wallet, node)
    ensures r >= WithFallback(wallet, node, ChosenFeeRate(wallet, coinControl))
    ensures r == GetRequiredFeeRate(wallet, node) || r == WithFallback(wallet, node, ChosenFeeRate(wallet, coinControl))
  {
    Max(WithFallback(wallet, node, ChosenFeeRate(wallet, coinControl)), GetRequiredFeeRate(wallet, node))
  }

  /**
   * GetRequiredFee: the required rate's ceiling fee for the size, which is
   * the fee at the wallet minimum or at the relay minimum, and the larger of
   * the two when the fee grows with the rate.
   */
  function GetRequiredFee(wallet: Wallet, node: Node, txBytes: nat): (r: Amount)
    ensures r == node.feeCeiling(wallet.minFee, txBytes) || r == node.feeCeiling(node.minRelayTxFee, txBytes)
    ensures MonotoneInRate(node.feeCeiling) ==>
      r >= node.feeCeiling(wallet.minFee, txBytes) && r >= node.feeCeiling(node.minRelayTxFee, txBytes)
  {
    node.feeCeiling(GetRequiredFeeRate(wallet, node), txBytes)
  }

  /** GetMinimumFee: the minimum rate's ceiling fee for the size, but never above the maximum fee. */
  function GetMinimumFee(wallet: Wallet, txBytes: nat, coinControl: CoinControl, node: Node): (r: Amount)
    ensures r <= node.maxTxFee
    ensures var fee := node.feeCeiling(GetMinimumFeeRate(wallet, coinControl, node), txBytes);
      (fee <= node.maxTxFee ==> r == fee) && (fee > node.maxTxFee ==> r == node.maxTxFee)
  {
    var feeNeeded := node.feeCeiling(GetMinimumFeeRate(wallet, coinControl, node), txBytes);
    if feeNeeded > node.maxTxFee then node.maxTxFee else feeNeeded
  }

  /** A ceiling function that never gives a lower fee for a higher rate. */
  ghost predicate MonotoneInRate(feeCeiling: (FeeRate, nat) -> Amount) {
    forall a: FeeRate, b: FeeRate, n: nat {:trigger feeCeiling(a, n), feeCeiling(b, n)} :: a <= b ==> feeCeiling(a, n) <= feeCeiling(b, n)
  }

  /**
   * When the fee ceiling grows with the rate, the minimum fee is at least the
   * required fee unless the maximum fee cuts it, and then it is the maximum.
   */
  lemma MinimumFeeCoversRequired(wallet: Wallet, txBytes: nat, coinControl: CoinControl, node: Node)
    requires MonotoneInRate(node.feeCeiling)
    ensures GetMinimumFee(wallet, txBytes, coinControl, node) >= GetRequiredFee(wallet, node, txBytes)
         || GetMinimumFee(wallet, txBytes, coinControl, node) == node.maxTxFee
  {
    var required := GetRequiredFeeRate(wallet, node);
    var minimum := GetMinimumFeeRate(wallet, coinControl, node);
    assert node.feeCeiling(required, txBytes) <= node.feeCeiling(minimum, txBytes);
  }

  /** An override at or above the required rate is used as it is, whatever the wallet's own settings. */
  lemma OverrideHonoured(wallet: Wallet, node: Node, rate: FeeRate)
    requires rate != 0 && rate >= GetRequiredFeeRate(wallet, node)
    ensures GetMinimumFeeRate(wallet, CoinControl(true, Some(rate)), node) == rate
  {
  }

  /** Without an override or a wallet rate, an empty mempool estimate leads to the fallback rate, floored by the required rate. */
  lemma ZeroRatesUseFallback(wallet: Wallet, coinControl: CoinControl, node: Node)
    requires !(coinControl.overrideFeeRate && coinControl.feeRate.Some?)
    requires wallet.payTxFee == 0 && node.estimateFee == 0
    ensures GetMinimumFeeRate(wallet, coinControl, node) == Max(wallet.fallbackFee, GetRequiredFeeRate(wallet, node))
  {
  }
}
