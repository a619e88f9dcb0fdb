/** The balance cache of src/wallet.ts. The chain client's balance query is an
    oracle: its answer is passed in as `fetched`. */
module Wallets {
  import opened Wrappers
  import opened BigNumbers
  import opened Amounts
  import opened Assets
  import opened Entities

  /** One balance as the chain client reports it: the asset's chain and symbol, and
      the raw amount in base units. */
  datatype RawBalance = RawBalance(chain: Chain, symbol: string, amount: Big)

  datatype Wallet = Wallet(balances: seq<AssetAmount>)

  datatype Error = Violated(violation: Violation) | Rejected(cause: string)

  /** The wallet after an operation, and what the operation resolved or rejected with. */
  datatype Step<T> = Step(wallet: Wallet, result: Result<T, Error>)

  /** The mapping step of `getBalance`: an Asset with the default decimal 8, and an
      amount built from base units with no decimal. */
  function Cached(b: RawBalance): (x: AssetAmount)
    ensures x.asset.chain == b.chain && x.asset.symbol == b.symbol && x.asset.decimal == 8
    ensures x.asset == NewAsset(b.chain, b.symbol)
    ensures x.amount.baseAmount == b.amount && x.amount.decimal.None?
  {
    AssetAmount(NewAsset(b.chain, b.symbol), New(b.amount, BaseUnits, None))
  }

  /** `balances.map(...)`: one entry per balance, in the same order. */
  function CacheOf(bs: seq<RawBalance>): (xs: seq<AssetAmount>)
    ensures |xs| == |bs|
    ensures forall i :: 0 <= i < |bs| ==> xs[i].asset == NewAsset(bs[i].chain, bs[i].symbol)
    ensures forall i :: 0 <= i < |bs| ==> xs[i].amount.baseAmount == bs[i].amount && xs[i].amount.decimal.None?
  {
    if |bs| == 0 then [] else [Cached(bs[0])] + CacheOf(bs[1..])
  }

  /** `getBalance()`: on success the cache is replaced by the mapped list, which is
      also the result; on failure the cache is untouched and the error passed on. */
  function GetBalance(w: Wallet, fetched: Result<seq<RawBalance>, string>): (s: Step<seq<AssetAmount>>)
    ensures fetched.Err? ==> s == Step(w, Err(Rejected(fetched.error)))
    ensures fetched.Ok? ==> s.result == Ok(s.wallet.balances)
    ensures fetched.Ok? ==> |s.wallet.balances| == |fetched.value|
    ensures fetched.Ok? ==> forall i :: 0 <= i < |fetched.value| ==>
      s.wallet.balances[i].asset == NewAsset(fetched.value[i].chain, fetched.value[i].symbol)
      && s.wallet.balances[i].amount.baseAmount == fetched.value[i].amount
  {
    match fetched
    case Err(e) => Step(w, Err(Rejected(e)))
    case Ok(bs) =>
      var xs := CacheOf(bs);
      Step(Wallet(xs), Ok(xs))
  }

  /** `balances.find(data => data.asset.eq(asset))`, as the index of the first match. */
  function FindFirst(balances: seq<AssetAmount>, asset: Asset): (r: Option<nat>)
    ensures r.None? <==> forall i :: 0 <= i < |balances| ==> !Assets.Eq(balances[i].asset, asset)
    ensures r.Some? ==> r.value < |balances| && Assets.Eq(balances[r.value].asset, asset)
    ensures r.Some? ==> forall j :: 0 <= j < r.value ==> !Assets.Eq(balances[j].asset, asset)
  {
    if |balances| == 0 then None
    else if Assets.Eq(balances[0].asset, asset) then Some(0)
    else match FindFirst(balances[1..], asset)
         case None => None
         case Some(k) => Some(k + 1)
  }

  /** `hasAmountInBalance(requested)`: refreshes the cache, then compares the first
      balance of the requested asset with the requested amount. */
  function HasAmountInBalance(w: Wallet, fetched: Result<seq<RawBalance>, string>,
                              requested: AssetAmount): (s: Step<bool>)
    ensures fetched.Err? ==> s == Step(w, Err(Rejected(fetched.error)))
    ensures fetched.Ok? ==> s.wallet == GetBalance(w, fetched).wallet
    ensures fetched.Ok? && (forall i :: 0 <= i < |s.wallet.balances| ==>
                              !Assets.Eq(s.wallet.balances[i].asset, requested.asset)) ==>
      s.result == Ok(false)
    ensures fetched.Ok? && s.result.Ok? && s.result.value ==>
      exists i :: 0 <= i < |s.wallet.balances| && Assets.Eq(s.wallet.balances[i].asset, requested.asset)
                  && IsGreaterThanOrEqualTo(s.wallet.balances[i].amount.baseAmount, requested.amount.baseAmount)
  {
    match GetBalance(w, fetched)
    case Step(w', Err(e)) => Step(w', Err(e))
    case Step(w', Ok(balances)) =>
      match FindFirst(balances, requested.asset)
      case None => Step(w', Ok(false))
      case Some(i) =>
        match Gte(balances[i].amount, requested.amount)
        case Err(v) => Step(w', Err(Violated(v)))
        case Ok(b) => Step(w', Ok(b))
  }

  /** The first matching balance decides, through `gte` and its decimal check. The
      cached amounts carry no decimal (as long as `new AssetAmount` keeps the amount
      it is given), so a requested amount that has one makes the comparison fail
      whenever the asset is held. */
  lemma {:induction false} FirstMatchDecides(w: Wallet, bs: seq<RawBalance>, requested: AssetAmount, i: nat)
    requires FindFirst(CacheOf(bs), requested.asset) == Some(i)
    ensures var s := HasAmountInBalance(w, Ok(bs), requested);
      && (requested.amount.decimal.Some? ==> s.result == Err(Violated(DecimalMismatch)))
      && (requested.amount.decimal.None? ==>
            s.result == Ok(IsGreaterThanOrEqualTo(bs[i].amount, requested.amount.baseAmount)))
  {
    var cache := CacheOf(bs);
    assert GetBalance(w, Ok(bs)) == Step(Wallet(cache), Ok(cache));
    var held := cache[i].amount;
    assert held.decimal.None? && held.baseAmount == bs[i].amount;
    assert HasAmountInBalance(w, Ok(bs), requested).result ==
      match Gte(held, requested.amount) case Err(v) => Err(Violated(v)) case Ok(b) => Ok(b);
  }
}
