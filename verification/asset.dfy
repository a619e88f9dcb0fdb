/** `Asset` of src/entities/asset.ts: the identity of a tradable unit. */
module Assets {

  /** A chain identifier such as "BNB", as in @xchainjs/xchain-util. */
  type Chain = string

  datatype Asset = Asset(chain: Chain, symbol: string, ticker: string, decimal: int)

  /** `symbol.split('-')[0]`: the part of the symbol before its first '-'. */
  function TickerOf(symbol: string): (t: string)
    ensures t <= symbol
    ensures '-' !in t
    ensures t == symbol || symbol[|t|] == '-'
  {
    if |symbol| == 0 || symbol[0] == '-' then ""
    else [symbol[0]] + TickerOf(symbol[1..])
  }

  /** The three facts of `TickerOf`'s contract pin the ticker down: any prefix
      without '-' that ends the symbol or stops at a '-' is that ticker. */
  lemma {:induction false} TickerCharacterised(symbol: string, t: string)
    requires t <= symbol && '-' !in t && (t == symbol || symbol[|t|] == '-')
    ensures t == TickerOf(symbol)
  {
    if |symbol| == 0 || symbol[0] == '-' {
    } else {
      assert |t| > 0;
      assert t[0] == symbol[0];
      assert t[1..] <= symbol[1..];
      assert forall c :: c in t[1..] ==> c in t;
      TickerCharacterised(symbol[1..], t[1..]);
      assert t == [t[0]] + t[1..];
    }
  }

  /** `new Asset(chain, symbol, decimal)`; the decimal defaults to 8. */
  function NewAsset(chain: Chain, symbol: string, decimal: int := 8): (a: Asset)
    ensures a.chain == chain && a.symbol == symbol && a.decimal == decimal
    ensures a.ticker <= symbol && '-' !in a.ticker
    ensures a.ticker == symbol || symbol[|a.ticker|] == '-'
  {
    Asset(chain, symbol, TickerOf(symbol), decimal)
  }

  /** `Asset.BNB()` */
  function BNB(): (a: Asset)
    ensures a == Asset("BNB", "BNB", "BNB", 8)
  {
    TickerCharacterised("BNB", "BNB");
    NewAsset("BNB", "BNB", 8)
  }

  /** `Asset.RUNE67C()` */
  function RUNE67C(): (a: Asset)
    ensures a == Asset("BNB", "RUNE-67C", "RUNE", 8)
  {
    TickerCharacterised("RUNE-67C", "RUNE");
    NewAsset("BNB", "RUNE-67C", 8)
  }

  /** `Asset.RUNEB1A()` */
  function RUNEB1A(): (a: Asset)
    ensures a == Asset("BNB", "RUNE-B1A", "RUNE", 8)
  {
    TickerCharacterised("RUNE-B1A", "RUNE");
    NewAsset("BNB", "RUNE-B1A", 8)
  }

  /** `a.eq(b)`: chain, symbol, ticker and decimal all agree. */
  function Eq(a: Asset, b: Asset): (r: bool)
    ensures r <==> a == b
  {
    a.chain == b.chain && a.symbol == b.symbol && a.ticker == b.ticker && a.decimal == b.decimal
  }

  /** `eq` is an equivalence relation. */
  lemma EqIsEquivalence(a: Asset, b: Asset, c: Asset)
    ensures Eq(a, a)
    ensures Eq(a, b) ==> Eq(b, a)
    ensures Eq(a, b) && Eq(b, c) ==> Eq(a, c)
  {
  }

  /** `isRUNE67C()` */
  function IsRUNE67C(a: Asset): (r: bool)
    ensures r <==> a.chain == "BNB" && a.symbol == "RUNE-67C" && a.ticker == "RUNE" && a.decimal == 8
  {
    Eq(a, RUNE67C())
  }

  /** `isRUNEB1A()` */
  function IsRUNEB1A(a: Asset): (r: bool)
    ensures r <==> a.chain == "BNB" && a.symbol == "RUNE-B1A" && a.ticker == "RUNE" && a.decimal == 8
  {
    Eq(a, RUNEB1A())
  }

  /** `isRUNE()`: either historical symbol of the settlement asset. */
  function IsRUNE(a: Asset): (r: bool)
    ensures r <==> a == RUNEB1A() || a == RUNE67C()
  {
    IsRUNEB1A(a) || IsRUNE67C(a)
  }

  /** `isBNB()` */
  function IsBNB(a: Asset): (r: bool)
    ensures r <==> a.chain == "BNB" && a.symbol == "BNB" && a.ticker == "BNB" && a.decimal == 8
  {
    Eq(a, BNB())
  }

  /** The canonical instances: tickers "BNB" and "RUNE", decimal 8; both RUNE
      variants are RUNE, BNB is not. */
  lemma CanonicalAssets()
    ensures BNB() == Asset("BNB", "BNB", "BNB", 8)
    ensures RUNE67C() == Asset("BNB", "RUNE-67C", "RUNE", 8)
    ensures RUNEB1A() == Asset("BNB", "RUNE-B1A", "RUNE", 8)
    ensures IsRUNE(RUNE67C()) && IsRUNE(RUNEB1A()) && !IsRUNE(BNB())
    ensures IsBNB(BNB()) && !IsBNB(RUNE67C()) && !IsBNB(RUNEB1A())
  {
  }

  /** JavaScript's `<` on strings: lexicographic by character. */
  predicate StrLess(a: string, b: string)
    decreases |a|
  {
    if |a| == 0 then |b| > 0
    else if |b| == 0 then false
    else if a[0] != b[0] then a[0] < b[0]
    else StrLess(a[1..], b[1..])
  }

  lemma {:induction false} StrLessIrreflexive(a: string)
    ensures !StrLess(a, a)
    decreases |a|
  {
    if |a| > 0 {
      StrLessIrreflexive(a[1..]);
    }
  }

  lemma {:induction false} StrLessTransitive(a: string, b: string, c: string)
    requires StrLess(a, b) && StrLess(b, c)
    ensures StrLess(a, c)
    decreases |a|
  {
    if |a| > 0 && |b| > 0 && |c| > 0 && a[0] == b[0] && b[0] == c[0] {
      StrLessTransitive(a[1..], b[1..], c[1..]);
    }
  }

  lemma {:induction false} StrLessTotal(a: string, b: string)
    ensures a == b || StrLess(a, b) || StrLess(b, a)
    decreases |a|
  {
    if |a| > 0 && |b| > 0 && a[0] == b[0] {
      StrLessTotal(a[1..], b[1..]);
      if a[1..] == b[1..] {
        assert a == [a[0]] + a[1..] && b == [b[0]] + b[1..];
      }
    }
  }

  lemma StrLessAsymmetric(a: string, b: string)
    ensures !(StrLess(a, b) && StrLess(b, a))
  {
    if StrLess(a, b) && StrLess(b, a) {
      StrLessTransitive(a, b, a);
      StrLessIrreflexive(a);
    }
  }

  /** `a.sortsBefore(b)`: by chain, and by symbol only between equal chains. */
  function SortsBefore(a: Asset, b: Asset): (r: bool)
    ensures a.chain != b.chain ==> (r <==> StrLess(a.chain, b.chain))
    ensures a.chain == b.chain ==> (r <==> StrLess(a.symbol, b.symbol))
  {
    if a.chain != b.chain then StrLess(a.chain, b.chain)
    else StrLess(a.symbol, b.symbol)
  }

  /** `sortsBefore` is a strict order: irreflexive, asymmetric and transitive, and
      never relates two `eq` assets. */
  lemma SortsBeforeIsStrictOrder(a: Asset, b: Asset, c: Asset)
    ensures !SortsBefore(a, a)
    ensures SortsBefore(a, b) ==> !SortsBefore(b, a)
    ensures SortsBefore(a, b) && SortsBefore(b, c) ==> SortsBefore(a, c)
    ensures Eq(a, b) ==> !SortsBefore(a, b) && !SortsBefore(b, a)
  {
    StrLessIrreflexive(a.chain);
    StrLessIrreflexive(a.symbol);
    StrLessAsymmetric(a.chain, b.chain);
    StrLessAsymmetric(a.symbol, b.symbol);
    if SortsBefore(a, b) && SortsBefore(b, c) {
      if a.chain == b.chain && b.chain == c.chain {
        StrLessTransitive(a.symbol, b.symbol, c.symbol);
      } else if a.chain != b.chain && b.chain != c.chain {
        StrLessTransitive(a.chain, b.chain, c.chain);
        if a.chain == c.chain {
          StrLessAsymmetric(a.chain, b.chain);
        }
      }
    }
  }

  /** Two assets with different chain or symbol are ordered one way or the other:
      the order is total on (chain, symbol). */
  lemma SortsBeforeIsTotalOnKeys(a: Asset, b: Asset)
    requires a.chain != b.chain || a.symbol != b.symbol
    ensures SortsBefore(a, b) || SortsBefore(b, a)
  {
    StrLessTotal(a.chain, b.chain);
    StrLessTotal(a.symbol, b.symbol);
  }
}
