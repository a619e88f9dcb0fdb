# bepswap-sdk: amounts, assets and the Binance-chain transfer orchestrator in Dafny

This project models two layers of the bepswap SDK, a client for swapping and
providing liquidity on BEPSwap over Binance chain.

1. **The exact-amount value model.** An `Amount` holds a value twice: in base
   units and in asset units. It also holds the `decimal` that relates the two.
   `Percent` is an `Amount` that renders as a percentage. An `Asset` identifies a
   tradable unit by chain, symbol, ticker and decimal. The constants of
   `src/constants/amount.ts` are also modelled.
2. **The transfer orchestrator of `BNBChain`.** It covers `transfer`,
   `multiSend`, `swap`, `addLiquidity` and `withdraw`, with its RUNE-to-BNB
   fallback. The balance check of `Wallet` is modelled too.

## How the model reads the code

- **BigNumber values** are `BigNumbers.Big`. This is an exact `real`, or
  ±Infinity, or NaN, as in bignumber.js. Sums, differences and products are exact.
  Comparisons involving NaN are all false.
- **The scale factor is `decimal` itself.** The constructor derives the missing
  side with `dividedBy(decimal)` or `multipliedBy(decimal)`. So with decimal 8,
  base = asset × 8, not asset × 10^8. A power-of-ten scale would be the usual
  convention; the code multiplies and divides by `decimal` itself, and so does
  this model. `Amounts.ScaleIsDecimalNotPowerOfTen` pins the difference down.
- **An omitted `decimal` is `None`.** Some call sites leave the argument out, so
  JavaScript passes `undefined`:
  - `_0_AMOUNT`, the withdraw amounts and `_100_`;
  - the amounts cached by `getBalance`.

  The side derived from `undefined` is NaN. Two `undefined` decimals compare
  equal under `===`, so `None == None` passes the decimal check. The model keeps
  all of these consequences. The next two hold under the reading of
  `AssetAmount` given below: `new AssetAmount(asset, amount)` keeps `amount`
  and its decimal as given, and `x.lte(y)` compares `x.amount` with `y`.
  - the zero that `addLiquidity` compares with has a NaN base value. An amount
    that carries a decimal therefore trips the decimal invariant, and one that
    does not compares false. Either way, "Invalid Rune/Asset Amount" is never
    reported (`Client.AmountChecksNeverReject`);
  - cached balances carry no decimal. So `hasAmountInBalance` with a requested
    amount that has one rejects on the invariant whenever the asset is held
    (`Wallets.FirstMatchDecides`).
- **Failed `invariant(...)` checks** are `Err(Violation)` results of the Amount
  functions. The orchestrator turns them into `Violated` rejections, as its
  `try/catch` does.
- **The orchestrator is a pure function.** An `Oracle` gives the pool-address
  lookup result. It also gives the chain client's answer to each request. Each
  operation returns a `Run`: the list of external calls in order, and the final
  `Ok(txHash)` or `Err(failure)`.
- **Memos are kept symbolically.** A memo is the datatype of the arguments it is
  built from. "Same memo" is then literal equality.
- `src/entities/assetAmount.ts` is not part of this model. An `AssetAmount` is
  taken to be the record `{asset, amount}`, with `amount` stored as given. The
  call `x.lte(_0_AMOUNT)` in `addLiquidity` is taken to mean
  `x.amount.lte(_0_AMOUNT)`. Both are assumptions about a file outside the model.
- `baseAmount(...)` of @xchainjs/xchain-util wraps every amount the orchestrator
  hands to the chain client. It is not part of this model, and it is assumed to
  pass the base value on unchanged. If it rounds to an integer and turns NaN into
  0, then the requests built from decimal-less amounts carry 0 instead of NaN.
  That includes both withdraw signals.

## Model

| member | source | states |
|---|---|---|
| Amounts.New | src/entities/amount.ts:68-81 | keeps the given side unchanged and records the decimal. The other side is derived by the factor `decimal`, so base = asset × decimal for a nonzero decimal. It is NaN when the decimal is omitted. |
| Amounts.FromBaseAmount | src/entities/amount.ts:54-59 | base value = v and asset value = v / d for finite v and d ≠ 0. The asset value is NaN without a decimal. The amount is coherent. |
| Amounts.FromAssetAmount | src/entities/amount.ts:61-66 | asset value = v and base value = v × d (factor d, not 10^d). The base value is NaN without a decimal. |
| Amounts.ScaleIsDecimalNotPowerOfTen | src/entities/amount.ts:74-80 | one asset unit at decimal 8 is 8 base units, and 10^8 base units are 12 500 000 asset units |
| Amounts.Zero | src/entities/amount.ts:83-85 | `_0_AMOUNT` has asset value 0 and this amount's decimal. Its base is 0 when that decimal is present. |
| Amounts.ZeroIsDecimalSafe | src/entities/amount.ts:83-85 | comparing x with its own `_0_AMOUNT` never trips the decimal check. With a decimal and a finite base, `lte` holds iff base ≤ 0. |
| Amounts.Add | src/entities/amount.ts:87-94 | fails iff the decimals differ. Otherwise base = sum of the base values, with this amount's decimal. |
| Amounts.Sub | src/entities/amount.ts:96-103 | fails iff the decimals differ. Otherwise base = difference of the base values, with this amount's decimal. |
| Amounts.AddSubRoundTrip | src/entities/amount.ts:87-103 | when b's base is finite, a.add(b).sub(b) gives back a's base value. It is `eq` to a unless a's base is NaN. |
| Amounts.AddCommutes | src/entities/amount.ts:87-94 | a.add(b) equals b.add(a) when the decimals agree |
| Amounts.Mul | src/entities/amount.ts:105-118 | never fails. asset = this asset × operand's value; the decimal is kept and the result is coherent. |
| Amounts.Div | src/entities/amount.ts:120-133 | never fails. asset = this asset ÷ operand's value; the decimal is kept and the result is coherent. |
| Amounts.OperandDecimalIgnored | src/entities/amount.ts:105-133 | an Amount operand contributes only its asset value. Its base and decimal are never read. |
| Amounts.MulOnAssetUnits | src/entities/amount.ts:113-117 | fromAssetAmount(2, d).mul(3) has asset value 6 for every d |
| Amounts.MulDivRoundTrip | src/entities/amount.ts:105-133 | for a coherent amount with a nonzero decimal, mul then div by the same finite nonzero value gives back exactly the original amount |
| Amounts.Gte | src/entities/amount.ts:135-138 | fails iff the decimals differ. Otherwise true iff base ≥ other base (false on NaN). |
| Amounts.Gt | src/entities/amount.ts:140-143 | fails iff the decimals differ. Otherwise true iff base > other base. |
| Amounts.Lte | src/entities/amount.ts:145-148 | fails iff the decimals differ. Otherwise true iff base ≤ other base. |
| Amounts.Lt | src/entities/amount.ts:150-153 | fails iff the decimals differ. Otherwise true iff base < other base. |
| Amounts.Eq | src/entities/amount.ts:155-158 | fails iff the decimals differ. Otherwise true iff the base values are equal. |
| Amounts.ComparisonsAreDual | src/entities/amount.ts:135-158 | for equal decimals and non-NaN bases: gte ⇔ ¬lt, lte ⇔ ¬gt, eq ⇔ gte ∧ lte, and a.gte(b) ⇔ b.lte(a) |
| Amounts.NaNComparesFalse | src/entities/amount.ts:135-158 | a NaN base makes all five comparisons false, so gte and lt are then not complements |
| Amounts.MismatchedDecimalsFail | src/entities/amount.ts:87-158 | add, sub and the five comparisons fail with the decimal violation exactly when the decimals differ |
| Amounts.CheckDigits | src/entities/amount.ts:165-169 | accepts exactly the positive integers. A non-integer is reported as such before the sign is checked. |
| Amounts.ToSignificant | src/entities/amount.ts:160-178 | succeeds iff the digit count is a positive integer of at most 10^9. The invariants fail first; a larger count is refused by `toPrecision`. It renders the asset value with the given format and rounding. |
| Amounts.CheckRange | src/entities/amount.ts:174 | the bignumber.js range check: counts up to `MAX` = 10^9 pass unchanged and larger ones are out of range |
| Amounts.DigitLimit | src/entities/amount.ts:174-197 | 10^9 digits render and 10^9 + 1 are refused with the range error by both renderers |
| Amounts.ToFixed | src/entities/amount.ts:180-198 | succeeds iff the place count is a positive integer of at most 10^9. The invariants fail first; a larger count is refused by `toFixed`/`toFormat`. It renders the asset value with the given format and rounding. |
| Amounts.RenderDefaults | src/entities/amount.ts:160-189 | with no arguments both renderers use 8 digits, an empty group separator and ROUND_DOWN |
| Amounts.RoundUnits | src/entities/amount.ts:193-195 | ROUND_DOWN, ROUND_UP and ROUND_HALF_UP pick the whole number of units below, above or nearest the magnitude |
| Amounts.RoundDownTruncates | src/entities/amount.ts:193-195 | `toFixed(k, ROUND_DOWN)` truncates toward zero. It keeps the sign, is no larger in magnitude and is within 10^-k. |
| Percents.Hundred | src/entities/percent.ts:6 | `_100_` has asset value 100, no decimal and a NaN base |
| Percents.Displayed | src/entities/percent.ts:14 | `this.mul(_100_)` has 100 × the asset value and keeps the percent's decimal |
| Percents.ToSignificant | src/entities/percent.ts:9-15 | renders 100 × the asset value. It has the same defaults, digit checks and 10^9 range as Amount. |
| Percents.ToFixed | src/entities/percent.ts:17-23 | renders 100 × the asset value. It has the same defaults, digit checks and 10^9 range as Amount. |
| Percents.RenderersDelegateToScaledAmount | src/entities/percent.ts:8-24 | each renderer is the Amount renderer of fromAssetAmount(100 × asset, decimal). `_100_` lacking a decimal changes nothing. |
| Percents.FractionRendersAsPercentage | src/entities/percent.ts:17-23 | a fraction of 0.3065 rendered with 2 places is 30.65 |
| Assets.TickerOf | src/entities/asset.ts:68-70 | the ticker is a prefix of the symbol without '-', and is either the whole symbol or stops at its first '-' |
| Assets.TickerCharacterised | src/entities/asset.ts:68-70 | any string with those three properties is the ticker, so they determine it |
| Assets.NewAsset | src/entities/asset.ts:61-66 | keeps chain, symbol and decimal (default 8) and derives the ticker from the symbol |
| Assets.Eq | src/entities/asset.ts:84-91 | holds iff chain, symbol, ticker and decimal all agree |
| Assets.EqIsEquivalence | src/entities/asset.ts:84-91 | `eq` is reflexive, symmetric and transitive |
| Assets.BNB | src/entities/asset.ts:39-41 | `Asset.BNB()` is chain BNB, symbol BNB, ticker BNB, decimal 8 |
| Assets.RUNE67C | src/entities/asset.ts:43-45 | `Asset.RUNE67C()` is chain BNB, symbol RUNE-67C, ticker RUNE, decimal 8 |
| Assets.RUNEB1A | src/entities/asset.ts:47-49 | `Asset.RUNEB1A()` is chain BNB, symbol RUNE-B1A, ticker RUNE, decimal 8 |
| Assets.IsRUNE67C | src/entities/asset.ts:93-95 | true iff chain, symbol, ticker and decimal are those of RUNE-67C |
| Assets.IsRUNEB1A | src/entities/asset.ts:97-99 | true iff chain, symbol, ticker and decimal are those of RUNE-B1A |
| Assets.IsBNB | src/entities/asset.ts:105-107 | true iff chain, symbol, ticker and decimal are those of BNB |
| Assets.IsRUNE | src/entities/asset.ts:101-103 | true iff the asset is RUNE-B1A or RUNE-67C |
| Assets.CanonicalAssets | src/entities/asset.ts:39-49 | BNB, RUNE-67C and RUNE-B1A sit on chain BNB with decimal 8 and tickers BNB/RUNE. Both RUNEs are RUNE and BNB is not. |
| Assets.SortsBefore | src/entities/asset.ts:109-115 | orders by chain, and by symbol only between equal chains |
| Assets.SortsBeforeIsStrictOrder | src/entities/asset.ts:109-115 | irreflexive, asymmetric and transitive. Two `eq` assets never sort before one another. |
| Assets.SortsBeforeIsTotalOnKeys | src/entities/asset.ts:109-115 | of two assets differing in chain or symbol, one sorts before the other |
| AmountConstants.MinimumOf | src/constants/amount.ts:11-14 | a withdraw amount: asset value MINIMUM_AMOUNT, no decimal, NaN base |
| AmountConstants.WithdrawTxRuneB1AAmount | src/constants/amount.ts:11-14 | MINIMUM_AMOUNT of RUNE-B1A, with no decimal and a NaN base |
| AmountConstants.WithdrawTxRune67CAmount | src/constants/amount.ts:16-19 | MINIMUM_AMOUNT of RUNE-67C, with no decimal and a NaN base |
| AmountConstants.WithdrawTxBnbAmount | src/constants/amount.ts:29-32 | MINIMUM_AMOUNT of BNB, with no decimal and a NaN base |
| AmountConstants.GetWithdrawTxRuneAmount | src/constants/amount.ts:21-27 | mainnet gives RUNE-B1A and any other network gives RUNE-67C. The result is a RUNE, with the same amount as the BNB fallback. |
| AmountConstants.WithdrawAmounts | src/constants/amount.ts:11-32 | all three withdraw amounts carry 0.00000001 asset units. The fallback is in BNB, which is not RUNE. |
| AmountConstants.NetworkFee | src/constants/fee.ts:5-8 | `NETWORK_FEE` is one RUNE-B1A, a RUNE asset. It is built without a decimal, so its base value is NaN. |
| AmountConstants.ZeroAmount | src/constants/amount.ts:34 | `_0_AMOUNT` has asset value 0, no decimal and a NaN base |
| Client.GetMidgardNetwork | src/chains/client.ts:64-67 | 'testnet' maps to testnet and every other network to chaosnet |
| Client.NewBnbChain | src/chains/client.ts:42-57 | keeps the network (default mainnet) and derives the Midgard network from it |
| Client.Transfer | src/chains/client.ts:94-114 | one request forwarding chain, symbol, ticker and the base value unchanged, with recipient and memo. The chain client's answer is the outcome. |
| Client.MultiSend | src/chains/client.ts:120-156 | one multi-transfer to the recipient with exactly two coins, first then second, as base values |
| Client.Swap | src/chains/client.ts:162-186 | an insufficient fee rejects with no call. Otherwise: one lookup, then one transfer of the input amount to the pool with the swap memo. |
| Client.SwapSendsAtMostOnce | src/chains/client.ts:171-182 | `swap` sends at most one request |
| Client.AddLiquidity | src/chains/client.ts:192-235 | looks up the pool first. Symmetric: checks RUNE, then the asset, then one multi-transfer with RUNE first. Asymmetric: checks the asset, then one transfer. A failed check sends nothing. |
| Client.NotPositive | src/chains/client.ts:207 | `x.lte(_0_AMOUNT)` fails iff x's amount carries a decimal. Otherwise it is ≤ against the zero's base value. |
| Client.ZeroCheckWithoutDecimal | src/chains/client.ts:206-224 | comparing with the decimal-less `_0_AMOUNT` trips the invariant for amounts with a decimal, and answers false otherwise |
| Client.AmountChecksNeverReject | src/chains/client.ts:206-224 | `addLiquidity` never rejects for a non-positive amount. A symmetric deposit whose RUNE amount has a decimal always rejects on the invariant. |
| Client.AddLiquiditySendsAtMostOnce | src/chains/client.ts:192-235 | `addLiquidity` sends at most one request |
| Client.WithFallback | src/chains/client.ts:256-271 | sends the first request, and the second only if the first is rejected. The outcome is the first success or the second's answer. |
| Client.Withdraw | src/chains/client.ts:241-275 | a failed lookup rejects with no transfer. Every transfer goes to the looked-up pool, and an Ok result is the chain's answer to the last request. |
| Client.RuneWithdrawRequest | src/chains/client.ts:256-260 | the first withdraw signal: the network's minimal RUNE amount to the pool address, with the withdraw memo |
| Client.BnbWithdrawRequest | src/chains/client.ts:264-268 | the fallback signal: the minimal BNB amount to the same address, with the same memo |
| Client.WithdrawSignals | src/chains/client.ts:254-268 | both signals share recipient and memo; the first is in the network's RUNE, the second in BNB, and they differ |
| Client.PoolFallback | src/chains/client.ts:250-273 | the lookup, then a request with a fallback. Every request goes to the pool, and the outcome settles with the last answer. |
| Client.PoolFallbackOutcome | src/chains/client.ts:256-271 | the exact calls and outcome when the first request is accepted and when it is rejected |
| Client.WithdrawFallsBackOnce | src/chains/client.ts:250-273 | RUNE (by network) first. On rejection, exactly one BNB retry. The result is the first success or the second error. |
| Client.WithdrawSendsAtMostTwice | src/chains/client.ts:256-271 | at most two requests, and two only when the RUNE request was rejected |
| Client.PoolFallbackSendsAtMostTwice | src/chains/client.ts:256-271 | a request with a fallback sends at most two requests, two only after a rejection |
| Wallets.Cached | src/wallet.ts:22-27 | a cached balance keeps chain, symbol and the raw base value. Its asset has decimal 8 and its amount has no decimal. |
| Wallets.CacheOf | src/wallet.ts:21-28 | the cache has the same length and order as the balances fetched |
| Wallets.GetBalance | src/wallet.ts:17-34 | on success the cache is replaced by the mapped list and returned. On failure the cache is unchanged and the error passed on. |
| Wallets.FindFirst | src/wallet.ts:40-42 | the index of the first balance whose asset is `eq` to the requested one, or none if there is no such balance |
| Wallets.HasAmountInBalance | src/wallet.ts:36-50 | refreshes first. False when nothing matches; true only if a matching balance's base ≥ the requested base. |
| Wallets.FirstMatchDecides | src/wallet.ts:40-46 | the first match decides through `gte`. A requested amount with a decimal trips the invariant against the decimal-less cache. |

## Left out

- Promise plumbing: the `try/catch` re-rejections and `new Promise` wrapping are gone. Only the order of calls and the final outcome remain.
- The construction of `BncClient` and `MidgardV2` is left out, as are the getters `getBncClient`, `getMidgard` and `getWallet`. These clients are oracles here.
- The balance query is an oracle. Its answer is an input of `GetBalance` and `HasAmountInBalance`.
- The strings the renderers return are not modelled. That covers `toPrecision`, `toFormat` and the global `BigNumber.config({ FORMAT })`. `Format` keeps only the group separator.
- Amounts.ToSignificant: the value is not rounded to significant digits. Only the guards and the value handed to the renderer are modelled.
- Amounts.Div: quotients are exact. bignumber.js rounds them to 20 decimal places.
- Amounts.New: the asset side derived by `dividedBy(decimal)` is an exact quotient. bignumber.js rounds it to 20 decimal places, so `Coherent` holds only in this exact model. For example, base 1 at decimal 3 gives the asset 0.33333333333333333333, and that times 3 is not 1.
- Amounts.FromBaseAmount: the same exact quotient as `New`. Its asset value is v / d exactly, not v / d rounded to 20 places.
- Amounts.MulDivRoundTrip: holds for exact quotients only. In bignumber.js an asset value of 1e-22 becomes 0 after `mul(3).div(3)`.
- The sign of zero is not modelled, so `-0` and `0` are the same value. bignumber.js keeps it, and `x / -0` is `-Infinity` there.
- A `decimal` is an integer here. A fractional JavaScript number used as a decimal is not modelled.
- A digit count is a `real` here. NaN and infinite digit counts are not modelled; like non-integers, the source rejects them.
- `toString`, `currencySymbol`, `fromAssetString` and `priceIn` of `Asset` are left out. They depend on @xchainjs/xchain-util, `Pool` and `Price`, which are not part of this model.
- The canonical assets' chain and symbol come from @xchainjs/xchain-util. They are taken to be ("BNB", "BNB"), ("BNB", "RUNE-67C") and ("BNB", "RUNE-B1A").
- `StrLess` compares by Unicode scalar value. JavaScript compares strings by UTF-16 code unit. The two orders differ only for characters outside the Basic Multilingual Plane.
- The memo builders are left out. `Memo` keeps their arguments, not their text.
- `Swap`, `Pool` and `AssetAmount` are modelled only by the fields the orchestrator reads.
- `Network` has only the values `mainnet` and `testnet`, as the type of the Binance client allows.
- `src/clients/types.ts` holds only parameter shapes. `Params` mirrors them.
- `DEFAULT_SLIP_LIMIT` is the constant `AmountConstants.DefaultSlipLimit = 30`. Nothing in the core uses it.
