/** The transfer orchestrator of src/chains/client.ts, as a pure function from the
    answers of its collaborators to the calls it makes and the outcome it reports.

    The pool-address service (Midgard) and the Binance chain client are oracles: an
    `Oracle` holds the result of the pool-address lookup and, for every request the
    chain client may be sent, its answer. Promises only order the calls; an
    operation's `Run` lists them in order. */
module Client {
  import opened Wrappers
  import opened BigNumbers
  import opened Amounts
  import opened Assets
  import opened Entities
  import opened AmountConstants
  import opened Params

  /** The network the Midgard client is built for. */
  datatype MidgardNetwork = MidgardTestnet | Chaosnet

  /** `getMidgardNetwork(network)` */
  function GetMidgardNetwork(network: Network): (m: MidgardNetwork)
    ensures m == MidgardTestnet <==> network == Testnet
    ensures m == Chaosnet <==> network != Testnet
  {
    if network == Testnet then MidgardTestnet else Chaosnet
  }

  /** The configuration a `BNBChain` keeps; the clients themselves are oracles. */
  datatype BnbChain = BnbChain(network: Network, midgardNetwork: MidgardNetwork)

  /** `new BNBChain({ network })`; the network defaults to mainnet. */
  function NewBnbChain(network: Network := Mainnet): (c: BnbChain)
    ensures c.network == network
    ensures c.midgardNetwork == MidgardTestnet <==> network == Testnet
  {
    BnbChain(network, GetMidgardNetwork(network))
  }

  type TxHash = string

  /** The asset descriptor the chain client receives. */
  datatype WireAsset = WireAsset(chain: string, symbol: string, ticker: string)

  datatype Coin = Coin(asset: WireAsset, amount: Big)

  datatype MultiTransfer = MultiTransfer(to: string, coins: seq<Coin>)

  /** What is handed to the chain client. */
  datatype Request =
    | TransferRequest(asset: WireAsset, amount: Big, recipient: string, memo: Option<Memo>)
    | MultiSendRequest(transactions: seq<MultiTransfer>, memo: Option<Memo>)

  /** An external call: a pool-address lookup, or a request to the chain client. */
  datatype Call = GetPoolAddress | Submit(request: Request)

  /** Why an operation rejects. */
  datatype Failure =
    | InsufficientFee
    | InvalidRuneAmount
    | InvalidAssetAmount
    | Violated(violation: Violation)
    | Rejected(cause: string)

  /** The calls an operation made, in order, and what it resolved or rejected with. */
  datatype Run = Run(trace: seq<Call>, result: Result<TxHash, Failure>)

  /** The answers of the collaborators. */
  datatype Oracle = Oracle(poolAddress: Result<string, string>, answer: Request -> Result<TxHash, string>)

  function WireAssetOf(a: Asset): WireAsset
  {
    WireAsset(a.chain, a.symbol, a.ticker)
  }

  /** A coin entry: the asset descriptor and the amount's base value. */
  function CoinOf(x: AssetAmount): Coin
  {
    Coin(WireAssetOf(x.asset), x.amount.baseAmount)
  }

  /** One request sent to the chain client, whose answer is passed on verbatim. */
  function Submitted(o: Oracle, q: Request): Run
  {
    Run([Submit(q)], match o.answer(q) case Ok(h) => Ok(h) case Err(e) => Err(Rejected(e)))
  }

  /** True when `q` sends everything to `addr`. */
  predicate AddressedTo(q: Request, addr: string)
  {
    match q
    case TransferRequest(_, _, recipient, _) => recipient == addr
    case MultiSendRequest(transactions, _) => forall t :: t in transactions ==> t.to == addr
  }

  /** An operation resolves only with the chain client's answer to its last request,
      and a rejection by the chain client is passed on unchanged. */
  predicate Settled(o: Oracle, r: Run)
  {
    && (r.result.Ok? ==>
          |r.trace| > 0 && r.trace[|r.trace| - 1].Submit?
          && o.answer(r.trace[|r.trace| - 1].request) == Ok(r.result.value))
    && (|r.trace| > 0 && r.trace[|r.trace| - 1].Submit? ==>
          r.result == match o.answer(r.trace[|r.trace| - 1].request)
                      case Ok(h) => Ok(h)
                      case Err(e) => Err(Rejected(e)))
  }

  /** The shape every pool operation shares: the lookup comes first and once, a
      failed lookup ends the operation with its error, and every later call is a
      request addressed to the looked-up pool. */
  predicate PoolDirected(o: Oracle, r: Run)
  {
    && |r.trace| >= 1 && r.trace[0] == GetPoolAddress
    && (o.poolAddress.Err? ==> r == Run([GetPoolAddress], Err(Rejected(o.poolAddress.error))))
    && (forall i :: 1 <= i < |r.trace| ==>
          r.trace[i].Submit? && o.poolAddress.Ok? && AddressedTo(r.trace[i].request, o.poolAddress.value))
  }

  /** Every call in `trace` is a request addressed to `addr`. */
  predicate AllSubmitsTo(trace: seq<Call>, addr: string)
  {
    forall i :: 0 <= i < |trace| ==> trace[i].Submit? && AddressedTo(trace[i].request, addr)
  }

  /** `r` preceded by the pool-address lookup that returned `addr`. */
  function AfterLookup(o: Oracle, addr: string, r: Run): (r': Run)
    requires o.poolAddress == Ok(addr) && AllSubmitsTo(r.trace, addr)
    requires Settled(o, r) && (r.result.Err? && r.result.error.Rejected? ==> |r.trace| > 0)
    ensures r'.trace == [GetPoolAddress] + r.trace && r'.result == r.result
    ensures PoolDirected(o, r') && Settled(o, r')
  {
    var r' := Run([GetPoolAddress] + r.trace, r.result);
    assert forall i :: 1 <= i < |r'.trace| ==> r'.trace[i] == r.trace[i - 1];
    r'
  }

  /** `transfer(tx)`: one request carrying the asset's chain, symbol and ticker and
      the amount's base value, unchanged, with the recipient and memo. */
  function Transfer(o: Oracle, tx: TxParams): (r: Run)
    ensures |r.trace| == 1 && r.trace[0].Submit? && r.trace[0].request.TransferRequest?
    ensures r.trace[0].request.asset ==
              WireAsset(tx.assetAmount.asset.chain, tx.assetAmount.asset.symbol, tx.assetAmount.asset.ticker)
    ensures r.trace[0].request.amount == tx.assetAmount.amount.baseAmount
    ensures r.trace[0].request.recipient == tx.recipient && r.trace[0].request.memo == tx.memo
    ensures Settled(o, r)
  {
    Submitted(o, TransferRequest(WireAssetOf(tx.assetAmount.asset), tx.assetAmount.amount.baseAmount,
                                 tx.recipient, tx.memo))
  }

  /** `multiSend(params)`: one multi-transfer to the recipient holding exactly two
      coins, the first amount's then the second's, each as its base value. */
  function MultiSend(o: Oracle, p: MultiSendParams): (r: Run)
    ensures |r.trace| == 1 && r.trace[0].Submit? && r.trace[0].request.MultiSendRequest?
    ensures |r.trace[0].request.transactions| == 1
    ensures r.trace[0].request.transactions[0].to == p.recipient
    ensures r.trace[0].request.transactions[0].coins ==
              [ Coin(WireAssetOf(p.assetAmount1.asset), p.assetAmount1.amount.baseAmount),
                Coin(WireAssetOf(p.assetAmount2.asset), p.assetAmount2.amount.baseAmount) ]
    ensures r.trace[0].request.memo == p.memo
    ensures AddressedTo(r.trace[0].request, p.recipient)
    ensures Settled(o, r)
  {
    var transactions := [MultiTransfer(p.recipient, [CoinOf(p.assetAmount1), CoinOf(p.assetAmount2)])];
    Submitted(o, MultiSendRequest(transactions, p.memo))
  }

  /** `swap(swap)`: rejects for an insufficient fee before any call; otherwise
      looks up the pool address once and transfers the input amount to it with the
      swap memo. */
  function Swap(o: Oracle, s: Entities.Swap): (r: Run)
    ensures s.hasInSufficientFee ==> r == Run([], Err(InsufficientFee))
    ensures !s.hasInSufficientFee ==> PoolDirected(o, r) && Settled(o, r)
    ensures !s.hasInSufficientFee && o.poolAddress.Ok? ==>
      var addr := o.poolAddress.value;
      r.trace == [GetPoolAddress,
                  Submit(TransferRequest(WireAssetOf(s.inputAmount.asset), s.inputAmount.amount.baseAmount,
                                         addr, Some(SwapMemo(s.outputAsset, addr, s.slipLimit))))]
  {
    if s.hasInSufficientFee then Run([], Err(InsufficientFee))
    else
      match o.poolAddress
      case Err(e) => Run([GetPoolAddress], Err(Rejected(e)))
      case Ok(addr) =>
        AfterLookup(o, addr, Transfer(o, TxParams(s.inputAmount, addr, Some(SwapMemo(s.outputAsset, addr, s.slipLimit)))))
  }

  /** `x.lte(_0_AMOUNT)` with the decimal-less zero of src/constants/amount.ts,
      compared against the amount part of `x`. */
  function NotPositive(x: AssetAmount): (r: Checked<bool>)
    ensures r.Err? <==> x.amount.decimal.Some?
    ensures r.Err? ==> r.error == DecimalMismatch
    ensures r.Ok? ==> (r.value <==> IsLessThanOrEqualTo(x.amount.baseAmount, ZeroAmount().baseAmount))
  {
    Lte(x.amount, ZeroAmount())
  }

  /** The validation-then-send part of `addLiquidity`, once the address is known. */
  function Deposit(o: Oracle, p: AddLiquidityParams, addr: string): Run
  {
    var memo := Some(DepositMemo(p.pool.asset));
    match p.runeAmount
    case Some(rune) =>
      (match NotPositive(rune)
       case Err(v) => Run([], Err(Violated(v)))
       case Ok(true) => Run([], Err(InvalidRuneAmount))
       case Ok(false) =>
         match NotPositive(p.assetAmount)
         case Err(v) => Run([], Err(Violated(v)))
         case Ok(true) => Run([], Err(InvalidAssetAmount))
         case Ok(false) => MultiSend(o, MultiSendParams(rune, p.assetAmount, addr, memo)))
    case None =>
      match NotPositive(p.assetAmount)
      case Err(v) => Run([], Err(Violated(v)))
      case Ok(true) => Run([], Err(InvalidAssetAmount))
      case Ok(false) => Transfer(o, TxParams(p.assetAmount, addr, memo))
  }

  /** `addLiquidity(params)`: looks up the pool address first, then checks the
      amounts; a symmetric deposit checks RUNE then the asset and sends both in one
      multi-transfer, RUNE first; an asymmetric one checks the asset and sends it
      alone. A failed check rejects with no request sent. */
  function AddLiquidity(o: Oracle, p: AddLiquidityParams): (r: Run)
    ensures PoolDirected(o, r) && Settled(o, r)
    ensures r.result.Err? && !r.result.error.Rejected? ==> r.trace == [GetPoolAddress]
    ensures o.poolAddress.Ok? && p.runeAmount.Some? ==>
      && (NotPositive(p.runeAmount.value).Err? ==> r.result == Err(Violated(NotPositive(p.runeAmount.value).error)))
      && (NotPositive(p.runeAmount.value) == Ok(true) ==> r.result == Err(InvalidRuneAmount))
      && (NotPositive(p.runeAmount.value) == Ok(false) && NotPositive(p.assetAmount).Err? ==>
            r.result == Err(Violated(NotPositive(p.assetAmount).error)))
      && (NotPositive(p.runeAmount.value) == Ok(false) && NotPositive(p.assetAmount) == Ok(true) ==>
            r.result == Err(InvalidAssetAmount))
      && (NotPositive(p.runeAmount.value) == Ok(false) && NotPositive(p.assetAmount) == Ok(false) ==>
            r.trace == [GetPoolAddress,
                        Submit(MultiSendRequest([MultiTransfer(o.poolAddress.value,
                                                   [CoinOf(p.runeAmount.value), CoinOf(p.assetAmount)])],
                                                Some(DepositMemo(p.pool.asset))))])
    ensures o.poolAddress.Ok? && p.runeAmount.None? ==>
      && (NotPositive(p.assetAmount).Err? ==> r.result == Err(Violated(NotPositive(p.assetAmount).error)))
      && (NotPositive(p.assetAmount) == Ok(true) ==> r.result == Err(InvalidAssetAmount))
      && (NotPositive(p.assetAmount) == Ok(false) ==>
            r.trace == [GetPoolAddress,
                        Submit(TransferRequest(WireAssetOf(p.assetAmount.asset), p.assetAmount.amount.baseAmount,
                                               o.poolAddress.value, Some(DepositMemo(p.pool.asset))))])
  {
    match o.poolAddress
    case Err(e) => Run([GetPoolAddress], Err(Rejected(e)))
    case Ok(addr) => AfterLookup(o, addr, Deposit(o, p, addr))
  }

  /** The request `transfer` makes for sending `x` to `addr` with `memo`. */
  function TransferRequestOf(x: AssetAmount, addr: string, memo: Option<Memo>): (q: Request)
    ensures q.TransferRequest? && AddressedTo(q, addr) && q.memo == memo
    ensures q.asset == WireAssetOf(x.asset) && q.amount == x.amount.baseAmount
  {
    TransferRequest(WireAssetOf(x.asset), x.amount.baseAmount, addr, memo)
  }

  /** Send `first`; only if the chain client rejects it, send `second`. The
      outcome is the first success, or the second rejection. */
  function WithFallback(o: Oracle, first: Request, second: Request): (r: Run)
    ensures o.answer(first).Ok? ==> r == Run([Submit(first)], Ok(o.answer(first).value))
    ensures o.answer(first).Err? ==> r.trace == [Submit(first), Submit(second)]
    ensures 0 < |r.trace| && forall i :: 0 <= i < |r.trace| ==> r.trace[i] in [Submit(first), Submit(second)]
    ensures Settled(o, r)
  {
    var attempt := Submitted(o, first);
    if attempt.result.Ok? then attempt
    else
      var retry := Submitted(o, second);
      Run(attempt.trace + retry.trace, retry.result)
  }

  /** The lookup that returned `addr`, then `first` with `second` as its fallback. */
  function PoolFallback(o: Oracle, addr: string, first: Request, second: Request): (r: Run)
    requires o.poolAddress == Ok(addr) && AddressedTo(first, addr) && AddressedTo(second, addr)
    ensures r.trace == [GetPoolAddress] + WithFallback(o, first, second).trace
    ensures r.result == WithFallback(o, first, second).result
    ensures PoolDirected(o, r) && Settled(o, r)
  {
    var attempts := WithFallback(o, first, second);
    assert AllSubmitsTo(attempts.trace, addr);
    AfterLookup(o, addr, attempts)
  }

  /** The calls and outcome of `PoolFallback`, case by case. */
  lemma PoolFallbackOutcome(o: Oracle, addr: string, first: Request, second: Request)
    requires o.poolAddress == Ok(addr) && AddressedTo(first, addr) && AddressedTo(second, addr)
    ensures var r := PoolFallback(o, addr, first, second);
      && (o.answer(first).Ok? ==> r == Run([GetPoolAddress, Submit(first)], Ok(o.answer(first).value)))
      && (o.answer(first).Err? ==>
            && r.trace == [GetPoolAddress, Submit(first), Submit(second)]
            && r.result == match o.answer(second) case Ok(h) => Ok(h) case Err(e) => Err(Rejected(e)))
  {
    var r := PoolFallback(o, addr, first, second);
    if o.answer(first).Ok? {
      assert r.trace == [GetPoolAddress] + [Submit(first)];
    } else {
      assert r.trace == [GetPoolAddress] + [Submit(first), Submit(second)];
      assert r.trace[|r.trace| - 1] == Submit(second);
    }
  }

  /** The withdraw signal in RUNE: the network's minimal RUNE amount with the
      withdraw memo. */
  function RuneWithdrawRequest(chain: BnbChain, p: WithdrawParams, addr: string): (q: Request)
    ensures q.TransferRequest? && AddressedTo(q, addr) && q.recipient == addr
    ensures q.asset == WireAssetOf(GetWithdrawTxRuneAmount(chain.network).asset)
    ensures q.memo == Some(WithdrawMemo(p.pool.asset, p.percent))
  {
    TransferRequestOf(GetWithdrawTxRuneAmount(chain.network), addr, Some(WithdrawMemo(p.pool.asset, p.percent)))
  }

  /** The fallback withdraw signal: the minimal BNB amount with the same memo. */
  function BnbWithdrawRequest(p: WithdrawParams, addr: string): (q: Request)
    ensures q.TransferRequest? && AddressedTo(q, addr) && q.recipient == addr
    ensures q.asset == WireAssetOf(BNB())
    ensures q.memo == Some(WithdrawMemo(p.pool.asset, p.percent))
  {
    TransferRequestOf(WithdrawTxBnbAmount(), addr, Some(WithdrawMemo(p.pool.asset, p.percent)))
  }

  /** `withdraw(params)`: looks up the pool address, sends the network's minimal
      RUNE amount with the withdraw memo, and only if that is rejected sends the
      minimal BNB amount to the same address with the same memo, once. */
  function Withdraw(o: Oracle, chain: BnbChain, p: WithdrawParams): (r: Run)
    ensures PoolDirected(o, r) && Settled(o, r)
  {
    match o.poolAddress
    case Err(e) => Run([GetPoolAddress], Err(Rejected(e)))
    case Ok(addr) =>
      PoolFallback(o, addr, RuneWithdrawRequest(chain, p, addr), BnbWithdrawRequest(p, addr))
  }

  /** The two withdraw signals go to the same address with the same memo; the
      first is in the network's RUNE, the fallback in BNB, and they differ. */
  lemma WithdrawSignals(chain: BnbChain, p: WithdrawParams, addr: string)
    ensures var first := RuneWithdrawRequest(chain, p, addr);
      var second := BnbWithdrawRequest(p, addr);
      && first.recipient == second.recipient == addr
      && first.memo == second.memo == Some(WithdrawMemo(p.pool.asset, p.percent))
      && first.asset == WireAssetOf(GetWithdrawTxRuneAmount(chain.network).asset)
      && second.asset == WireAssetOf(BNB())
      && first != second
  {
    CanonicalAssets();
  }

  /** After a successful lookup, `withdraw` sends the RUNE signal; it resolves with
      its hash if accepted, and otherwise sends the BNB signal, once, and settles
      with that answer. */
  lemma WithdrawFallsBackOnce(o: Oracle, chain: BnbChain, p: WithdrawParams)
    requires o.poolAddress.Ok?
    ensures var first := RuneWithdrawRequest(chain, p, o.poolAddress.value);
      var second := BnbWithdrawRequest(p, o.poolAddress.value);
      var r := Withdraw(o, chain, p);
      && (o.answer(first).Ok? ==> r == Run([GetPoolAddress, Submit(first)], Ok(o.answer(first).value)))
      && (o.answer(first).Err? ==>
            && r.trace == [GetPoolAddress, Submit(first), Submit(second)]
            && r.result == match o.answer(second) case Ok(h) => Ok(h) case Err(e) => Err(Rejected(e)))
  {
    var addr := o.poolAddress.value;
    var first, second := RuneWithdrawRequest(chain, p, addr), BnbWithdrawRequest(p, addr);
    PoolFallbackOutcome(o, addr, first, second);
    assert Withdraw(o, chain, p) == PoolFallback(o, addr, first, second);
  }

  /** The zero `addLiquidity` compares with has no decimal and a NaN base value, so
      the `lte` test either trips the decimal invariant (amounts that carry a decimal) or
      answers false (amounts that do not); it never reports a non-positive amount. */
  lemma ZeroCheckWithoutDecimal(x: AssetAmount)
    ensures x.amount.decimal.Some? ==> NotPositive(x) == Err(DecimalMismatch)
    ensures x.amount.decimal.None? ==> NotPositive(x) == Ok(false)
    ensures NotPositive(x) != Ok(true)
  {
  }

  /** Hence, with an `AssetAmount` that keeps its amount as given and compares
      through it, `addLiquidity` as written never rejects with "Invalid Rune Amount"
      or "Invalid Asset Amount"; a symmetric deposit whose RUNE amount carries a decimal
      always rejects on the decimal invariant, after the lookup and before any
      request. */
  lemma AmountChecksNeverReject(o: Oracle, p: AddLiquidityParams)
    ensures AddLiquidity(o, p).result != Err(InvalidRuneAmount)
    ensures AddLiquidity(o, p).result != Err(InvalidAssetAmount)
    ensures o.poolAddress.Ok? && p.runeAmount.Some? && p.runeAmount.value.amount.decimal.Some? ==>
      AddLiquidity(o, p) == Run([GetPoolAddress], Err(Violated(DecimalMismatch)))
  {
    if p.runeAmount.Some? {
      ZeroCheckWithoutDecimal(p.runeAmount.value);
    }
    ZeroCheckWithoutDecimal(p.assetAmount);
  }

  /** The number of requests sent to the chain client in `trace`. */
  function RequestCount(trace: seq<Call>): nat
  {
    if |trace| == 0 then 0
    else (if trace[0].Submit? then 1 else 0) + RequestCount(trace[1..])
  }

  /** A trace holds no more requests than calls, and a leading lookup is not one. */
  lemma {:induction false} RequestCountBound(trace: seq<Call>)
    ensures RequestCount(trace) <= |trace|
    ensures |trace| > 0 && trace[0] == GetPoolAddress ==> RequestCount(trace) <= |trace| - 1
  {
    if |trace| > 0 {
      RequestCountBound(trace[1..]);
    }
  }

  /** `swap` sends at most one request. */
  lemma SwapSendsAtMostOnce(o: Oracle, s: Entities.Swap)
    ensures RequestCount(Swap(o, s).trace) <= 1
  {
    RequestCountBound(Swap(o, s).trace);
  }

  /** `addLiquidity` sends at most one request, a multi-transfer or a transfer. */
  lemma AddLiquiditySendsAtMostOnce(o: Oracle, p: AddLiquidityParams)
    ensures RequestCount(AddLiquidity(o, p).trace) <= 1
  {
    RequestCountBound(AddLiquidity(o, p).trace);
  }

  /** `withdraw` is the only operation that retries: at most two requests, and two
      only when the chain client rejected the first. */
  lemma WithdrawSendsAtMostTwice(o: Oracle, chain: BnbChain, p: WithdrawParams)
    ensures RequestCount(Withdraw(o, chain, p).trace) <= 2
    ensures RequestCount(Withdraw(o, chain, p).trace) == 2 ==>
      o.poolAddress.Ok? && o.answer(RuneWithdrawRequest(chain, p, o.poolAddress.value)).Err?
  {
    if o.poolAddress.Ok? {
      var addr := o.poolAddress.value;
      PoolFallbackSendsAtMostTwice(o, addr, RuneWithdrawRequest(chain, p, addr), BnbWithdrawRequest(p, addr));
    } else {
      RequestCountBound(Withdraw(o, chain, p).trace);
    }
  }

  /** A lookup followed by a request with a fallback sends at most two requests,
      and two only when the first was rejected. */
  lemma PoolFallbackSendsAtMostTwice(o: Oracle, addr: string, first: Request, second: Request)
    requires o.poolAddress == Ok(addr) && AddressedTo(first, addr) && AddressedTo(second, addr)
    ensures RequestCount(PoolFallback(o, addr, first, second).trace) <= 2
    ensures RequestCount(PoolFallback(o, addr, first, second).trace) == 2 ==> o.answer(first).Err?
  {
    var r := PoolFallback(o, addr, first, second);
    PoolFallbackOutcome(o, addr, first, second);
    RequestCountBound(r.trace);
  }
}
