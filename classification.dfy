/** The symbol classifier: a fixed-priority chain of character-class rules
    and set lookups (forex, then crypto, then commodity, then US equity, else
    unknown), over a symbol that is first upper-cased and stripped.  The
    crypto and commodity sets grow through custom mappings, so the service is
    a class whose two sets are fields. */
module Classification {
  import opened Text
  import opened AssetTypes

  const DefaultCryptoSymbols: set<string> := {
    "BTC", "ETH", "ADA", "DOT", "SOL", "AVAX", "MATIC", "LINK", "UNI", "AAVE",
    "SUSHI", "CRV", "YFI", "COMP", "MKR", "SNX", "1INCH", "DOGE", "SHIB", "LTC",
    "BCH", "XRP", "XLM", "TRX", "EOS", "VET", "ALGO", "ATOM", "NEAR", "FTM",
    "LUNA", "UST", "USDC", "USDT", "DAI", "BUSD", "FRAX", "TUSD"}

  const ForexCurrencies: set<string> := {
    "USD", "EUR", "GBP", "JPY", "CHF", "CAD", "AUD", "NZD", "SEK", "NOK",
    "DKK", "PLN", "CZK", "HUF", "TRY", "ZAR", "MXN", "BRL", "CNY", "HKD",
    "SGD", "KRW", "INR", "THB", "MYR", "IDR", "PHP"}

  const DefaultCommoditySymbols: set<string> := {
    "GC", "SI", "CL", "NG", "HG", "PL", "PA", "ZC", "ZS", "ZW",
    "KC", "CC", "CT", "SB", "OJ", "LB", "HE", "LE", "GF", "ZL"}

  /** Quote currencies that make a two-part pair a crypto pair. */
  const CryptoQuotes: set<string> := {"USD", "USDT", "USDC", "BTC", "ETH"}

  /** Suffixes removed from a base symbol, tried in this order. */
  const BaseSuffixes: seq<string> := ["USD", "USDT", "USDC", "BTC", "ETH"]

  /** What `classify_symbol` looks at: `symbol.upper().strip()`. */
  function Normalize(s: string): string
  {
    Strip(Upper(s))
  }

  /** Normalizing twice is normalizing once. */
  lemma NormalizeIdempotent(s: string)
    ensures Normalize(Normalize(s)) == Normalize(s)
  {
    var u := Upper(s);
    var n := Strip(u);
    assert forall i :: 0 <= i < |n| ==> n[i] in u;
    UpperFixed(n);
    StripIdempotent(u);
  }

  predicate IsSep(c: char)
  {
    c == '-' || c == '/'
  }

  /** `[A-Z]{lo,hi}` matching the whole string. */
  predicate Letters(s: string, lo: nat, hi: nat)
  {
    lo <= |s| <= hi && forall i :: 0 <= i < |s| ==> IsAsciiUpper(s[i])
  }

  /** The position of the first '-' or '/', or the length when there is none. */
  function SepIndex(s: string): (k: nat)
    ensures k <= |s|
    ensures k < |s| ==> IsSep(s[k])
    ensures forall i :: 0 <= i < k ==> !IsSep(s[i])
  {
    if |s| == 0 || IsSep(s[0]) then 0 else 1 + SepIndex(s[1..])
  }

  /** `re.split(r"[-/]", s)`. */
  function Split(s: string): (parts: seq<string>)
    ensures |parts| >= 1
    ensures parts[0] == s[..SepIndex(s)]
    ensures |parts| == 1 <==> SepIndex(s) == |s|
    decreases |s|
  {
    var k := SepIndex(s);
    if k == |s| then [s] else [s[..k]] + Split(s[k + 1..])
  }

  /** "XXX-YYY" and "XXX/YYY" split into their two halves. */
  lemma SplitPair(n: string)
    requires |n| == 7 && IsSep(n[3]) && Letters(n[..3], 3, 3) && Letters(n[4..], 3, 3)
    ensures Split(n) == [n[..3], n[4..]]
  {
    assert forall i :: 0 <= i < 3 ==> n[i] == n[..3][i];
    assert SepIndex(n) == 3;
    var rest := n[4..];
    assert forall i :: 0 <= i < |rest| ==> !IsSep(rest[i]);
    assert SepIndex(rest) == 3;
  }

  /** A string of letters does not split. */
  lemma SplitLetters(n: string, lo: nat, hi: nat)
    requires Letters(n, lo, hi)
    ensures Split(n) == [n]
  {
    assert SepIndex(n) == |n|;
  }

  function StripFirstSuffix(base: string, suffixes: seq<string>): (r: string)
    ensures |r| <= |base| && r == base[..|r|]
    ensures r == base
            || exists i :: 0 <= i < |suffixes| && |base| > |suffixes[i]|
                           && base[|base| - |suffixes[i]|..] == suffixes[i]
                           && r == base[..|base| - |suffixes[i]|]
  {
    if |suffixes| == 0 then base
    else
      var x := suffixes[0];
      if |base| > |x| && base[|base| - |x|..] == x then base[..|base| - |x|]
      else
        var r := StripFirstSuffix(base, suffixes[1..]);
        assert forall i :: 0 <= i < |suffixes| - 1 ==> suffixes[1..][i] == suffixes[i + 1];
        r
  }

  /** `_extract_base_symbol`: the text before the first separator, without
      the first of USD/USDT/USDC/BTC/ETH that it ends with, when something
      would be left. */
  function ExtractBase(n: string): (r: string)
    ensures |r| <= |n| && r == n[..|r|]
  {
    var b := Split(n)[0];
    assert b == n[..SepIndex(n)];
    StripFirstSuffix(b, BaseSuffixes)
  }

  /** `[-/]?` between a 2-to-5-letter base and a fixed quote. */
  predicate BaseWithOptionalSep(r: string)
  {
    Letters(r, 2, 5) || (|r| >= 1 && IsSep(r[|r| - 1]) && Letters(r[..|r| - 1], 2, 5))
  }

  predicate BaseThenQuote(n: string, q: string)
  {
    |n| >= |q| && n[|n| - |q|..] == q && BaseWithOptionalSep(n[..|n| - |q|])
  }

  /** The three crypto patterns: `^[A-Z]{2,5}[-/]?USD[TC]?$`, `…BTC$`, `…ETH$`. */
  predicate MatchesCryptoPattern(n: string)
  {
    BaseThenQuote(n, "USD") || BaseThenQuote(n, "USDT") || BaseThenQuote(n, "USDC")
    || BaseThenQuote(n, "BTC") || BaseThenQuote(n, "ETH")
  }

  /** Forex pattern 0 is `^[A-Z]{3}[A-Z]{3}$`, pattern 1 `^[A-Z]{3}[-/][A-Z]{3}$`. */
  predicate MatchesForexPattern(n: string, i: nat)
  {
    if i == 0 then Letters(n, 6, 6)
    else |n| == 7 && IsSep(n[3]) && Letters(n[..3], 3, 3) && Letters(n[4..], 3, 3)
  }

  /** `_is_forex_symbol`, pattern by pattern from `i`: the first matching
      pattern decides, unless its check falls through to the next one. */
  function ForexPatternsFrom(n: string, i: nat): bool
    decreases 2 - i
  {
    if i >= 2 then false
    else if MatchesForexPattern(n, i) then
      if SepIndex(n) < |n| then
        var parts := Split(n);
        if |parts| == 2 then parts[0] in ForexCurrencies && parts[1] in ForexCurrencies
        else ForexPatternsFrom(n, i + 1)
      else if |n| == 6 then n[..3] in ForexCurrencies && n[3..] in ForexCurrencies
      else ForexPatternsFrom(n, i + 1)
    else ForexPatternsFrom(n, i + 1)
  }

  predicate IsForexSymbol(n: string)
  {
    ForexPatternsFrom(n, 0)
  }

  /** A known-currency pair written "XXXYYY", "XXX-YYY" or "XXX/YYY". */
  predicate ForexPair(n: string)
  {
    (Letters(n, 6, 6) && n[..3] in ForexCurrencies && n[3..] in ForexCurrencies)
    || (MatchesForexPattern(n, 1) && n[..3] in ForexCurrencies && n[4..] in ForexCurrencies)
  }

  /** The forex rule holds exactly for pairs of two known currency codes. */
  lemma ForexRule(n: string)
    ensures IsForexSymbol(n) <==> ForexPair(n)
  {
    if Letters(n, 6, 6) {
      assert SepIndex(n) == |n|;
    } else if MatchesForexPattern(n, 1) {
      SplitPair(n);
    }
  }

  /** `_is_crypto_symbol`. */
  predicate IsCryptoSymbol(crypto: set<string>, n: string)
  {
    ExtractBase(n) in crypto
    || MatchesCryptoPattern(n)
    || (SepIndex(n) < |n| && |Split(n)| == 2 && (Split(n)[0] in crypto || Split(n)[1] in CryptoQuotes))
  }

  /** `_is_commodity_symbol`. */
  predicate IsCommoditySymbol(commodity: set<string>, n: string)
  {
    ExtractBase(n) in commodity
  }

  /** `_is_us_equity_symbol`. */
  predicate IsUsEquitySymbol(crypto: set<string>, commodity: set<string>, n: string)
  {
    Letters(n, 1, 5) && n !in crypto && n !in commodity && n !in ForexCurrencies
  }

  /** The priority chain of `classify_symbol` on an already normalized symbol. */
  function ClassifyNormal(crypto: set<string>, commodity: set<string>, n: string): (t: AssetType)
    ensures t != InternationalEquity
  {
    if IsForexSymbol(n) then Forex
    else if IsCryptoSymbol(crypto, n) then Crypto
    else if IsCommoditySymbol(commodity, n) then Commodity
    else if IsUsEquitySymbol(crypto, commodity, n) then UsEquity
    else Unknown
  }

  /** `classify_symbol` over given crypto and commodity sets: an empty
      symbol is unknown, any other is classified by its normalized text. */
  function ClassifyWith(crypto: set<string>, commodity: set<string>, symbol: string): (t: AssetType)
    ensures symbol == "" ==> t == Unknown
    ensures symbol != "" ==> t == ClassifyNormal(crypto, commodity, Normalize(symbol))
  {
    if symbol == "" then Unknown else ClassifyNormal(crypto, commodity, Normalize(symbol))
  }

  /** What each verdict requires of the normalized symbol. */
  lemma ClassifyOutcomes(crypto: set<string>, commodity: set<string>, n: string)
    ensures ClassifyNormal(crypto, commodity, n) == Forex <==> ForexPair(n)
    ensures ClassifyNormal(crypto, commodity, n) == Crypto <==> !ForexPair(n) && IsCryptoSymbol(crypto, n)
    ensures ClassifyNormal(crypto, commodity, n) == Commodity <==>
              !ForexPair(n) && !IsCryptoSymbol(crypto, n) && ExtractBase(n) in commodity
    ensures ClassifyNormal(crypto, commodity, n) == UsEquity <==>
              !ForexPair(n) && !IsCryptoSymbol(crypto, n) && ExtractBase(n) !in commodity
              && IsUsEquitySymbol(crypto, commodity, n)
  {
    ForexRule(n);
  }

  /** A symbol that normalizes to nothing (only whitespace) is unknown
      unless the empty string has been added to a set. */
  lemma BlankSymbolIsUnknown(crypto: set<string>, commodity: set<string>, symbol: string)
    requires Normalize(symbol) == "" && "" !in crypto && "" !in commodity
    ensures ClassifyWith(crypto, commodity, symbol) == Unknown
  {
    ForexRule("");
    assert SepIndex("") == 0;
    assert ExtractBase("") == "";
  }

  /** Classifying the normalized symbol gives the same answer: the
      classifier sees only the upper-cased, stripped text. */
  lemma ClassifyNormalized(crypto: set<string>, commodity: set<string>, symbol: string)
    requires symbol != "" && Normalize(symbol) != ""
    ensures ClassifyWith(crypto, commodity, Normalize(symbol)) == ClassifyWith(crypto, commodity, symbol)
  {
    NormalizeIdempotent(symbol);
  }

  /** Letter case does not matter. */
  lemma ClassifyIgnoresCase(crypto: set<string>, commodity: set<string>, symbol: string)
    ensures ClassifyWith(crypto, commodity, Lower(symbol)) == ClassifyWith(crypto, commodity, symbol)
  {
    UpperOfLower(symbol);
    assert Normalize(Lower(symbol)) == Normalize(symbol);
  }

  /** Surrounding whitespace does not matter. */
  lemma ClassifyIgnoresPadding(crypto: set<string>, commodity: set<string>, w1: string, symbol: string, w2: string)
    requires AllSpace(w1) && AllSpace(w2) && symbol != ""
    ensures ClassifyWith(crypto, commodity, w1 + symbol + w2) == ClassifyWith(crypto, commodity, symbol)
  {
    UpperFixed(w1);
    UpperFixed(w2);
    assert Upper(w1 + symbol + w2) == w1 + Upper(symbol) + w2;
    StripIgnoresPadding(w1, Upper(symbol), w2);
    assert Normalize(w1 + symbol + w2) == Normalize(symbol);
  }

  lemma DefaultSetsLengths()
    ensures forall x :: x in DefaultCryptoSymbols ==> |x| >= 3
    ensures forall x :: x in DefaultCommoditySymbols ==> |x| == 2
  {
    CryptoSymbolsLength();
    CommoditySymbolsLength();
  }

  lemma CryptoSymbolsLength()
    ensures forall x :: x in DefaultCryptoSymbols ==> |x| >= 3
  {
  }

  lemma CommoditySymbolsLength()
    ensures forall x :: x in DefaultCommoditySymbols ==> |x| == 2
  {
  }

  /** The base of a string of letters is itself, or what is left of it
      after a three- or four-letter quote suffix. */
  lemma LettersBase(n: string)
    requires Letters(n, 1, 5)
    ensures ExtractBase(n) == n || |ExtractBase(n)| <= 1
            || (|n| == 5 && n[2..] in {"USD", "BTC", "ETH"} && ExtractBase(n) == n[..2])
  {
    SplitLetters(n, 1, 5);
  }

  /** The crypto patterns need at least five characters, the last three a quote. */
  lemma ShortLettersNotCryptoPattern(n: string)
    requires Letters(n, 1, 5) && !(|n| == 5 && n[2..] in {"USD", "BTC", "ETH"})
    ensures !MatchesCryptoPattern(n)
  {
  }

  /** Neither default set holds the base of a short ticker outside them. */
  lemma ShortBaseNotInDefaults(n: string)
    requires Letters(n, 1, 5) && n !in DefaultCryptoSymbols && n !in DefaultCommoditySymbols
    requires !(|n| == 5 && n[2..] in {"USD", "BTC", "ETH"})
    ensures ExtractBase(n) !in DefaultCryptoSymbols && ExtractBase(n) !in DefaultCommoditySymbols
  {
    LettersBase(n);
    DefaultSetsLengths();
  }

  /** The normalized form of the next lemma. */
  lemma ShortLettersAreUsEquity(n: string)
    requires Letters(n, 1, 5)
    requires n !in DefaultCryptoSymbols && n !in DefaultCommoditySymbols && n !in ForexCurrencies
    requires !(|n| == 5 && n[2..] in {"USD", "BTC", "ETH"})
    ensures ClassifyNormal(DefaultCryptoSymbols, DefaultCommoditySymbols, n) == UsEquity
  {
    ForexRule(n);
    assert !ForexPair(n);
    ShortBaseNotInDefaults(n);
    ShortLettersNotCryptoPattern(n);
    assert SepIndex(n) == |n|;
    assert !IsCryptoSymbol(DefaultCryptoSymbols, n);
  }

  /** With the default sets, a ticker of one to five letters that is in
      none of the sets is a US equity, except a five-letter one made of
      two letters followed by USD, BTC or ETH, which the crypto patterns
      claim. */
  lemma ShortTickerIsUsEquity(symbol: string)
    requires Letters(Normalize(symbol), 1, 5)
    requires Normalize(symbol) !in DefaultCryptoSymbols && Normalize(symbol) !in DefaultCommoditySymbols
    requires Normalize(symbol) !in ForexCurrencies
    requires !(|Normalize(symbol)| == 5 && Normalize(symbol)[2..] in {"USD", "BTC", "ETH"})
    ensures ClassifyWith(DefaultCryptoSymbols, DefaultCommoditySymbols, symbol) == UsEquity
  {
    ShortLettersAreUsEquity(Normalize(symbol));
  }

  /** A symbol added to the crypto set is crypto from then on, unless it
      is a forex pair or its base differs from itself (a separator or a
      quote suffix), in which case the rules look at other text. */
  lemma CustomCryptoTakesEffect(crypto: set<string>, commodity: set<string>, symbol: string)
    requires symbol != "" && ExtractBase(Normalize(symbol)) == Normalize(symbol)
    requires !ForexPair(Normalize(symbol))
    ensures ClassifyWith(crypto + {Normalize(symbol)}, commodity, symbol) == Crypto
  {
    ClassifyOutcomes(crypto + {Normalize(symbol)}, commodity, Normalize(symbol));
  }

  /** Likewise a symbol added to the commodity set, when no crypto rule claims it. */
  lemma CustomCommodityTakesEffect(crypto: set<string>, commodity: set<string>, symbol: string)
    requires symbol != "" && ExtractBase(Normalize(symbol)) == Normalize(symbol)
    requires !ForexPair(Normalize(symbol)) && !IsCryptoSymbol(crypto, Normalize(symbol))
    ensures ClassifyWith(crypto, commodity + {Normalize(symbol)}, symbol) == Commodity
  {
    ClassifyOutcomes(crypto, commodity + {Normalize(symbol)}, Normalize(symbol));
  }

  /** The keys of an entry list, in order. */
  function Keys<V>(entries: seq<(string, V)>): (ks: seq<string>)
    ensures |ks| == |entries|
    ensures forall i :: 0 <= i < |entries| ==> ks[i] == entries[i].0
  {
    if |entries| == 0 then [] else Keys(entries[..|entries| - 1]) + [entries[|entries| - 1].0]
  }

  /** `{s: classify(s) for s in symbols}` as an ordered list of entries: one
      per distinct symbol, in first-occurrence order. */
  function ClassifyAll(classify: string -> AssetType, symbols: seq<string>): (r: seq<(string, AssetType)>)
    ensures forall i, j :: 0 <= i < j < |r| ==> r[i].0 != r[j].0
    ensures forall x :: x in Keys(r) <==> x in symbols
    ensures forall i :: 0 <= i < |r| ==> r[i].1 == classify(r[i].0)
    ensures |r| <= |symbols|
  {
    if |symbols| == 0 then []
    else
      var init := ClassifyAll(classify, symbols[..|symbols| - 1]);
      var x := symbols[|symbols| - 1];
      assert symbols == symbols[..|symbols| - 1] + [x];
      if x in Keys(init) then init
      else
        var r := init + [(x, classify(x))];
        assert Keys(r) == Keys(init) + [x];
        r
  }

  /** `[s for s in symbols if classify(s) == t]`. */
  function FilterByType(classify: string -> AssetType, symbols: seq<string>, t: AssetType): (r: seq<string>)
    ensures forall x :: multiset(r)[x] == if classify(x) == t then multiset(symbols)[x] else 0
  {
    if |symbols| == 0 then []
    else
      var x := symbols[|symbols| - 1];
      assert symbols == symbols[..|symbols| - 1] + [x];
      var init := FilterByType(classify, symbols[..|symbols| - 1], t);
      if classify(x) == t then init + [x] else init
  }

  /** Filtering keeps the input order: it distributes over concatenation. */
  lemma {:induction false} FilterByTypeConcat(classify: string -> AssetType, a: seq<string>, b: seq<string>, t: AssetType)
    ensures FilterByType(classify, a + b, t) == FilterByType(classify, a, t) + FilterByType(classify, b, t)
  {
    if |b| == 0 {
      assert a + b == a;
    } else {
      var b' := b[..|b| - 1];
      assert (a + b)[..|a + b| - 1] == a + b';
      assert (a + b)[|a + b| - 1] == b[|b| - 1];
      FilterByTypeConcat(classify, a, b', t);
    }
  }

  /** Number of entries classified as `t`. */
  function CountOf(entries: seq<(string, AssetType)>, t: AssetType): (n: nat)
    ensures n <= |entries|
  {
    if |entries| == 0 then 0
    else CountOf(entries[..|entries| - 1], t) + (if entries[|entries| - 1].1 == t then 1 else 0)
  }

  /** The counts of `entries` summed over a list of types. */
  function SumCounts(entries: seq<(string, AssetType)>, types: seq<AssetType>): nat
  {
    if |types| == 0 then 0
    else SumCounts(entries, types[..|types| - 1]) + CountOf(entries, types[|types| - 1])
  }

  /** How often `t` occurs in `types`. */
  function Occurrences(types: seq<AssetType>, t: AssetType): nat
  {
    if |types| == 0 then 0
    else Occurrences(types[..|types| - 1], t) + (if types[|types| - 1] == t then 1 else 0)
  }

  lemma {:induction false} OccurrencesDistinct(types: seq<AssetType>, t: AssetType)
    requires forall i, j :: 0 <= i < j < |types| ==> types[i] != types[j]
    ensures Occurrences(types, t) == if t in types then 1 else 0
  {
    if |types| > 0 {
      var init := types[..|types| - 1];
      OccurrencesDistinct(init, t);
      assert types == init + [types[|types| - 1]];
    }
  }

  lemma {:induction false} SumCountsSnoc(entries: seq<(string, AssetType)>, e: (string, AssetType), types: seq<AssetType>)
    ensures SumCounts(entries + [e], types) == SumCounts(entries, types) + Occurrences(types, e.1)
  {
    if |types| > 0 {
      SumCountsSnoc(entries, e, types[..|types| - 1]);
      assert (entries + [e])[..|entries + [e]| - 1] == entries;
    }
  }

  /** Position of an asset type in declaration order. */
  function TypeIndex(t: AssetType): (k: nat)
    ensures k < |AllAssetTypes|
  {
    match t
    case UsEquity => 0
    case Crypto => 1
    case Forex => 2
    case Commodity => 3
    case InternationalEquity => 4
    case Unknown => 5
  }

  lemma AllAssetTypesDistinct()
    ensures forall i, j :: 0 <= i < j < |AllAssetTypes| ==> AllAssetTypes[i] != AllAssetTypes[j]
  {
  }

  lemma TypeIndexInverse(t: AssetType)
    ensures AllAssetTypes[TypeIndex(t)] == t
  {
  }

  lemma TypeIndexInjective()
    ensures forall a, b :: TypeIndex(a) == TypeIndex(b) ==> a == b
  {
  }

  lemma TypeIndexOf(k: nat)
    requires k < |AllAssetTypes|
    ensures TypeIndex(AllAssetTypes[k]) == k
  {
  }

  lemma {:induction false} SumCountsNoEntries(entries: seq<(string, AssetType)>, types: seq<AssetType>)
    requires |entries| == 0
    ensures SumCounts(entries, types) == 0
  {
    if |types| > 0 {
      SumCountsNoEntries(entries, types[..|types| - 1]);
    }
  }

  /** Every entry is counted under exactly one asset type. */
  lemma {:induction false} SumCountsAllTypes(entries: seq<(string, AssetType)>)
    ensures SumCounts(entries, AllAssetTypes) == |entries|
  {
    if |entries| > 0 {
      var init := entries[..|entries| - 1];
      var e := entries[|entries| - 1];
      SumCountsAllTypes(init);
      assert entries == init + [e];
      SumCountsSnoc(init, e, AllAssetTypes);
      AllAssetTypesDistinct();
      OccurrencesDistinct(AllAssetTypes, e.1);
      TypeIndexInverse(e.1);
      assert Occurrences(AllAssetTypes, e.1) == 1;
      assert SumCounts(entries, AllAssetTypes) == SumCounts(init, AllAssetTypes) + 1;
    } else {
      SumCountsNoEntries(entries, AllAssetTypes);
    }
  }

  /** The total of a statistics table. */
  function Total(stats: seq<(AssetType, nat)>): nat
  {
    if |stats| == 0 then 0 else Total(stats[..|stats| - 1]) + stats[|stats| - 1].1
  }

  /** The asset types a statistics table lists. */
  function Kinds(stats: seq<(AssetType, nat)>): set<AssetType>
  {
    if |stats| == 0 then {} else Kinds(stats[..|stats| - 1]) + {stats[|stats| - 1].0}
  }

  lemma {:induction false} KindsMembers(stats: seq<(AssetType, nat)>)
    ensures forall t :: t in Kinds(stats) <==> exists i :: 0 <= i < |stats| && stats[i].0 == t
  {
    if |stats| > 0 {
      KindsMembers(stats[..|stats| - 1]);
    }
  }

  /** The counting loop of `get_classification_stats`. */
  method CountType(entries: seq<(string, AssetType)>, t: AssetType) returns (count: nat)
    ensures count == CountOf(entries, t)
  {
    count := 0;
    var j := 0;
    while j < |entries|
      invariant 0 <= j <= |entries|
      invariant count == CountOf(entries[..j], t)
    {
      assert entries[..j + 1][..j] == entries[..j];
      if entries[j].1 == t {
        count := count + 1;
      }
      j := j + 1;
    }
    assert entries[..j] == entries;
  }

  /** What the table holds after the first `k` asset types. */
  predicate StatsUpTo(entries: seq<(string, AssetType)>, stats: seq<(AssetType, nat)>, k: nat)
  {
    k <= |AllAssetTypes|
    && (forall i :: 0 <= i < |stats| ==> stats[i].1 > 0 && stats[i].1 == CountOf(entries, stats[i].0))
    && (forall i :: 0 <= i < |stats| ==> TypeIndex(stats[i].0) < k)
    && (forall i, j :: 0 <= i < j < |stats| ==> TypeIndex(stats[i].0) < TypeIndex(stats[j].0))
    && (forall t :: t in Kinds(stats) <==> TypeIndex(t) < k && CountOf(entries, t) > 0)
    && Total(stats) == SumCounts(entries, AllAssetTypes[..k])
  }

  lemma StatsUpToSkip(entries: seq<(string, AssetType)>, stats: seq<(AssetType, nat)>, k: nat)
    requires StatsUpTo(entries, stats, k) && k < |AllAssetTypes| && CountOf(entries, AllAssetTypes[k]) == 0
    ensures StatsUpTo(entries, stats, k + 1)
  {
    var t := AllAssetTypes[k];
    var prefix := AllAssetTypes[..k + 1];
    assert prefix[..k] == AllAssetTypes[..k] && prefix[k] == t;
    TypeIndexOf(k);
    forall u | TypeIndex(u) == k
      ensures u == t
    {
      TypeIndexInverse(u);
    }
  }

  lemma StatsUpToAdd(entries: seq<(string, AssetType)>, stats: seq<(AssetType, nat)>, k: nat)
    requires StatsUpTo(entries, stats, k) && k < |AllAssetTypes| && CountOf(entries, AllAssetTypes[k]) > 0
    ensures StatsUpTo(entries, stats + [(AllAssetTypes[k], CountOf(entries, AllAssetTypes[k]))], k + 1)
  {
    var t := AllAssetTypes[k];
    var c := CountOf(entries, t);
    var next := stats + [(t, c)];
    TypeIndexOf(k);
    assert Total(next) == SumCounts(entries, AllAssetTypes[..k + 1]) by {
      var prefix := AllAssetTypes[..k + 1];
      assert prefix[..k] == AllAssetTypes[..k] && prefix[k] == t;
      assert next[..|next| - 1] == stats;
    }
    assert forall u :: u in Kinds(next) <==> TypeIndex(u) < k + 1 && CountOf(entries, u) > 0 by {
      assert next[..|next| - 1] == stats;
      assert Kinds(next) == Kinds(stats) + {t};
      forall u | TypeIndex(u) == k
        ensures u == t
      {
        TypeIndexInverse(u);
      }
    }
    assert forall i :: 0 <= i < |next| ==>
      next[i].1 > 0 && next[i].1 == CountOf(entries, next[i].0) && TypeIndex(next[i].0) < k + 1;
    assert forall i, j :: 0 <= i < j < |next| ==> TypeIndex(next[i].0) < TypeIndex(next[j].0);
  }

  /** The loop over asset types of `get_classification_stats`: for each
      type in declaration order, its count, listed only when positive; the
      counts add up to the number of entries. */
  method Stats(entries: seq<(string, AssetType)>) returns (stats: seq<(AssetType, nat)>)
    ensures forall i :: 0 <= i < |stats| ==> stats[i].1 > 0 && stats[i].1 == CountOf(entries, stats[i].0)
    ensures forall t :: t in Kinds(stats) <==> CountOf(entries, t) > 0
    ensures forall i, j :: 0 <= i < j < |stats| ==> TypeIndex(stats[i].0) < TypeIndex(stats[j].0)
    ensures Total(stats) == |entries|
  {
    stats := [];
    var k := 0;
    assert AllAssetTypes[..0] == [];
    while k < |AllAssetTypes|
      invariant StatsUpTo(entries, stats, k)
    {
      var t := AllAssetTypes[k];
      var count := CountType(entries, t);
      if count > 0 {
        StatsUpToAdd(entries, stats, k);
        stats := stats + [(t, count)];
      } else {
        StatsUpToSkip(entries, stats, k);
      }
      k := k + 1;
    }
    assert AllAssetTypes[..k] == AllAssetTypes;
    SumCountsAllTypes(entries);
  }

  class AssetClassificationService {
    var cryptoSymbols: set<string>
    var commoditySymbols: set<string>

    constructor ()
      ensures cryptoSymbols == DefaultCryptoSymbols && commoditySymbols == DefaultCommoditySymbols
    {
      cryptoSymbols := DefaultCryptoSymbols;
      commoditySymbols := DefaultCommoditySymbols;
    }

    /** `classify_symbol` with the service's current sets. */
    function ClassifySymbol(symbol: string): (t: AssetType)
      reads this
      ensures symbol == "" ==> t == Unknown
      ensures t == Forex <==> symbol != "" && ForexPair(Normalize(symbol))
    {
      ClassifyOutcomes(cryptoSymbols, commoditySymbols, Normalize(symbol));
      ClassifyWith(cryptoSymbols, commoditySymbols, symbol)
    }

    /** The classifier with the current sets, as a value. */
    function Classifier(): (f: string -> AssetType)
      reads this
      ensures forall s :: f(s) == ClassifySymbol(s)
    {
      var crypto := cryptoSymbols;
      var commodity := commoditySymbols;
      s => ClassifyWith(crypto, commodity, s)
    }

    /** `classify_symbols`: one entry per distinct symbol with its type. */
    function ClassifySymbols(symbols: seq<string>): (r: seq<(string, AssetType)>)
      reads this
      ensures forall i, j :: 0 <= i < j < |r| ==> r[i].0 != r[j].0
      ensures forall x :: x in Keys(r) <==> x in symbols
      ensures forall i :: 0 <= i < |r| ==> r[i].1 == ClassifySymbol(r[i].0)
    {
      ClassifyAll(Classifier(), symbols)
    }

    /** `get_symbols_by_type`: every occurrence of a symbol of type `t`,
        and nothing else, in input order (see `FilterByTypeConcat`). */
    function GetSymbolsByType(symbols: seq<string>, t: AssetType): (r: seq<string>)
      reads this
      ensures forall x :: x in r <==> x in symbols && ClassifySymbol(x) == t
      ensures forall x :: multiset(r)[x] == if ClassifySymbol(x) == t then multiset(symbols)[x] else 0
    {
      var r := FilterByType(Classifier(), symbols, t);
      assert forall x :: x in r <==> multiset(r)[x] > 0;
      assert forall x :: x in symbols <==> multiset(symbols)[x] > 0;
      r
    }

    /** `add_custom_mapping`: the normalized symbol joins the crypto or the
        commodity set; any other type changes nothing. */
    method AddCustomMapping(symbol: string, t: AssetType)
      modifies this
      ensures t == Crypto ==> cryptoSymbols == old(cryptoSymbols) + {Normalize(symbol)}
      ensures t != Crypto ==> cryptoSymbols == old(cryptoSymbols)
      ensures t == Commodity ==> commoditySymbols == old(commoditySymbols) + {Normalize(symbol)}
      ensures t != Commodity ==> commoditySymbols == old(commoditySymbols)
    {
      var n := Normalize(symbol);
      if t == Crypto {
        cryptoSymbols := cryptoSymbols + {n};
      } else if t == Commodity {
        commoditySymbols := commoditySymbols + {n};
      }
    }

    /** `get_classification_stats`: for each asset type in declaration
        order, the number of distinct symbols of that type, listed only when
        positive; the counts add up to the number of distinct symbols. */
    method GetClassificationStats(symbols: seq<string>) returns (stats: seq<(AssetType, nat)>)
      ensures forall i :: 0 <= i < |stats| ==> stats[i].1 > 0 && stats[i].1 == CountOf(ClassifySymbols(symbols), stats[i].0)
      ensures forall t :: t in Kinds(stats) <==> CountOf(ClassifySymbols(symbols), t) > 0
      ensures forall i, j :: 0 <= i < j < |stats| ==> TypeIndex(stats[i].0) < TypeIndex(stats[j].0)
      ensures Total(stats) == |ClassifySymbols(symbols)|
    {
      stats := Stats(ClassifySymbols(symbols));
    }
  }
}
