/** The entities the orchestrator passes around whose own source is not part of this
    model (`AssetAmount`, `Pool`, `Swap`, `Memo`), reduced to the fields that
    src/chains/client.ts and src/wallet.ts read. */
module Entities {
  import opened Assets
  import opened Amounts
  import opened Percents

  /** An amount of a given asset. src/entities/assetAmount.ts is not part of this
      model: the amount is assumed to be stored as given, and its decimal is not
      checked against the asset's. */
  datatype AssetAmount = AssetAmount(asset: Asset, amount: Amount)

  /** A liquidity pool, known here only by its asset. */
  datatype Pool = Pool(asset: Asset)

  /** A prepared swap: what is sent, what is wanted, the slip limit, and whether the
      input covers the network fee. */
  datatype Swap = Swap(inputAmount: AssetAmount, outputAsset: Asset, slipLimit: Amount,
                       hasInSufficientFee: bool)

  /** A protocol memo, kept as the arguments it is built from; its text is not
      modelled. */
  datatype Memo =
    | SwapMemo(outputAsset: Asset, poolAddress: string, slipLimit: Amount)
    | DepositMemo(asset: Asset)
    | WithdrawMemo(asset: Asset, percent: Percent)
}
