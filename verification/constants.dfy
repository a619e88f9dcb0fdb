/** The constants of src/constants/amount.ts. The withdraw amounts and the zero are
    built without a decimal, so their base values are NaN. */
module AmountConstants {
  import opened Wrappers
  import opened BigNumbers
  import opened Amounts
  import opened Assets
  import opened Entities

  /** The networks the Binance chain client knows. */
  datatype Network = Mainnet | Testnet

  /** `DEFAULT_SLIP_LIMIT`: 30 percent. */
  const DefaultSlipLimit: int := 30

  /** `MINIMUM_AMOUNT`: the least amount that carries a memo on Binance chain. */
  const MinimumAmount: real := 0.00000001

  /** `new AssetAmount(asset, new Amount(MINIMUM_AMOUNT, AmountType.ASSET_AMOUNT))` */
  function MinimumOf(asset: Asset): (r: AssetAmount)
    ensures r.asset == asset
    ensures r.amount.assetAmount == Finite(MinimumAmount)
    ensures r.amount.decimal.None? && r.amount.baseAmount.NaN?
  {
    AssetAmount(asset, New(Finite(MinimumAmount), AssetUnits, None))
  }

  /** `WITHDRAW_TX_RUNEB1A_AMOUNT` */
  function WithdrawTxRuneB1AAmount(): (r: AssetAmount)
    ensures r.asset == RUNEB1A()
    ensures r.amount.assetAmount == Finite(MinimumAmount)
    ensures r.amount.decimal.None? && r.amount.baseAmount.NaN?
  {
    MinimumOf(RUNEB1A())
  }

  /** `WITHDRAW_TX_RUNE67C_AMOUNT` */
  function WithdrawTxRune67CAmount(): (r: AssetAmount)
    ensures r.asset == RUNE67C()
    ensures r.amount.assetAmount == Finite(MinimumAmount)
    ensures r.amount.decimal.None? && r.amount.baseAmount.NaN?
  {
    MinimumOf(RUNE67C())
  }

  /** `WITHDRAW_TX_BNB_AMOUNT` */
  function WithdrawTxBnbAmount(): (r: AssetAmount)
    ensures r.asset == BNB()
    ensures r.amount.assetAmount == Finite(MinimumAmount)
    ensures r.amount.decimal.None? && r.amount.baseAmount.NaN?
  {
    MinimumOf(BNB())
  }

  /** `getWithdrawTxRuneAmount(network)`: RUNE-B1A on mainnet, RUNE-67C elsewhere. */
  function GetWithdrawTxRuneAmount(network: Network): (r: AssetAmount)
    ensures network == Mainnet ==> r.asset == RUNEB1A()
    ensures network != Mainnet ==> r.asset == RUNE67C()
    ensures IsRUNE(r.asset)
    ensures r.amount == WithdrawTxBnbAmount().amount
  {
    CanonicalAssets();
    if network == Mainnet then WithdrawTxRuneB1AAmount() else WithdrawTxRune67CAmount()
  }

  /** `_0_AMOUNT`: `Amount.fromAssetAmount(0)`, with no decimal. */
  function ZeroAmount(): (z: Amount)
    ensures z.assetAmount == Finite(0.0)
    ensures z.decimal.None? && z.baseAmount.NaN?
  {
    FromAssetAmount(Finite(0.0), None)
  }

  /** `NETWORK_FEE` of src/constants/fee.ts: one RUNE-B1A, with no decimal. */
  function NetworkFee(): (r: AssetAmount)
    ensures r.asset == RUNEB1A() && IsRUNE(r.asset)
    ensures r.amount.assetAmount == Finite(1.0)
    ensures r.amount.decimal.None? && r.amount.baseAmount.NaN?
  {
    CanonicalAssets();
    AssetAmount(RUNEB1A(), FromAssetAmount(Finite(1.0), None))
  }

  /** The three withdraw amounts are the minimum amount of RUNE-B1A, RUNE-67C and
      BNB; the fallback one is denominated in BNB and is not RUNE. */
  lemma WithdrawAmounts()
    ensures WithdrawTxRuneB1AAmount().asset == RUNEB1A()
    ensures WithdrawTxRune67CAmount().asset == RUNE67C()
    ensures WithdrawTxBnbAmount().asset == BNB() && IsBNB(WithdrawTxBnbAmount().asset)
    ensures !IsRUNE(WithdrawTxBnbAmount().asset)
    ensures WithdrawTxRuneB1AAmount().amount.assetAmount == Finite(MinimumAmount)
    ensures WithdrawTxRune67CAmount().amount.assetAmount == Finite(MinimumAmount)
    ensures WithdrawTxBnbAmount().amount.assetAmount == Finite(MinimumAmount)
  {
    CanonicalAssets();
  }
}
