/** The parameter records of src/types/index.ts. */
module Params {
  import opened Wrappers
  import opened Entities
  import opened Percents

  /** A single transfer: what to send, to whom, with an optional memo. */
  datatype TxParams = TxParams(assetAmount: AssetAmount, recipient: string, memo: Option<Memo>)

  /** A two-coin transfer to one recipient. */
  datatype MultiSendParams =
    MultiSendParams(assetAmount1: AssetAmount, assetAmount2: AssetAmount, recipient: string, memo: Option<Memo>)

  /** A liquidity deposit; it is symmetric when a RUNE amount is given. */
  datatype AddLiquidityParams =
    AddLiquidityParams(pool: Pool, runeAmount: Option<AssetAmount>, assetAmount: AssetAmount)

  /** A withdrawal of a percentage of the caller's share of a pool. */
  datatype WithdrawParams = WithdrawParams(pool: Pool, percent: Percent)
}
