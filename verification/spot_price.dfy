/**
 * The spot-price helper of src/lib/price.js: symbol normalisation, the
 * cached Binance-then-CoinGecko lookup, and the detector that picks a symbol
 * out of free text.
 *
 * The two providers are reached through `fetch`, passed in as a function from
 * the request URL to its outcome; `strNum` is the host's `Number(s)` on strings.
 */
module SpotPrice {
  import opened Wrappers
  import opened Text
  import opened Js

  /** How long a cached spot is served, in milliseconds. */
  const CacheMs: int := 10000

  /** The provider identifiers of a supported symbol. */
  datatype Asset = Asset(binance: string, coingecko: string)

  /** The supported symbols, in the order the table declares them. */
  const Keys: seq<string> := ["SOL", "BTC", "ETH", "BNB", "XRP", "MATIC", "DOGE"]

  const Assets: map<string, Asset> := map[
    "SOL" := Asset("SOLUSDT", "solana"),
    "BTC" := Asset("BTCUSDT", "bitcoin"),
    "ETH" := Asset("ETHUSDT", "ethereum"),
    "BNB" := Asset("BNBUSDT", "binancecoin"),
    "XRP" := Asset("XRPUSDT", "ripple"),
    "MATIC" := Asset("MATICUSDT", "matic-network"),
    "DOGE" := Asset("DOGEUSDT", "dogecoin")
  ]

  /** The declaration order lists exactly the table's symbols, and every Binance pair is the symbol quoted in USDT. */
  lemma AssetTable()
    ensures forall k :: k in Keys <==> k in Assets
    ensures forall k :: k in Assets ==> Assets[k].binance == k + "USDT"
  {
  }

  /** Two or more letters A–Z. */
  predicate IsSymbol(s: string) {
    |s| >= 2 && forall i :: 0 <= i < |s| ==> IsUpperAscii(s[i])
  }

  lemma KeysAreSymbols()
    ensures forall k :: k in Keys ==> IsSymbol(k)
  {
    assert IsSymbol("SOL") && IsSymbol("BTC") && IsSymbol("ETH") && IsSymbol("BNB");
    assert IsSymbol("XRP") && IsSymbol("MATIC") && IsSymbol("DOGE");
  }

  /** The letters A–Z of `s`, in order. */
  function Letters(s: string): (r: string)
    ensures |r| <= |s|
    ensures forall i :: 0 <= i < |r| ==> IsUpperAscii(r[i])
    ensures forall c :: c in r <==> c in s && IsUpperAscii(c)
  {
    if |s| == 0 then ""
    else if IsUpperAscii(s[0]) then [s[0]] + Letters(s[1..])
    else Letters(s[1..])
  }

  /** The filter works piece by piece: the letters of a concatenation are the letters of each part, in order. */
  lemma {:induction false} LettersAppend(a: string, b: string)
    ensures Letters(a + b) == Letters(a) + Letters(b)
  {
    if |a| > 0 {
      assert (a + b)[0] == a[0];
      assert (a + b)[1..] == a[1..] + b;
      LettersAppend(a[1..], b);
    } else {
      assert a + b == b;
    }
  }

  /** A string of letters A–Z only is its own letter filter. */
  lemma {:induction false} LettersOfLetters(s: string)
    requires forall i :: 0 <= i < |s| ==> IsUpperAscii(s[i])
    ensures Letters(s) == s
  {
    if |s| > 0 {
      LettersOfLetters(s[1..]);
      assert s == [s[0]] + s[1..];
    }
  }

  /** `normSym`: upper-cased, then everything but A–Z removed. */
  function NormSym(s: string): (r: string)
    ensures |r| <= |s|
    ensures forall i :: 0 <= i < |r| ==> IsUpperAscii(r[i])
    ensures forall c :: c in r <==> c in Upper(s) && IsUpperAscii(c)
  {
    Letters(Upper(s))
  }

  /** A run of letters A–Z is its own normal form. */
  lemma NormSymOfSymbol(s: string)
    requires forall i :: 0 <= i < |s| ==> IsUpperAscii(s[i])
    ensures NormSym(s) == s
  {
    LettersOfLetters(s);
    assert Upper(s) == s;
  }

  /** A symbol already in normal form is left alone, so normalising twice is normalising once. */
  lemma NormSymIdempotent(s: string)
    ensures NormSym(NormSym(s)) == NormSym(s)
  {
    NormSymOfSymbol(NormSym(s));
  }

  /** The symbol `getSpot` looks up: a missing or empty argument reads as `"SOL"`. */
  function Symbol(raw: Option<string>): (sym: string)
    ensures raw.None? || raw == Some("") ==> sym == "SOL"
    ensures forall i :: 0 <= i < |sym| ==> IsUpperAscii(sym[i])
  {
    var s := if raw.Some? && raw.value != "" then raw.value else "SOL";
    NormSymOfSymbol("SOL");
    NormSym(s)
  }

  function BinanceUrl(pair: string): string {
    "https://api.binance.com/api/v3/ticker/price?symbol=" + pair
  }

  function CoingeckoUrl(id: string): string {
    "https://api.coingecko.com/api/v3/simple/price?ids=" + id + "&vs_currencies=usd"
  }

  /** A price a provider answer carries: a 2xx reply whose field converts to a finite number. */
  function FinitePrice(f: Fetch, field: Value, strNum: string -> Number): (p: Option<real>)
    ensures p.Some? <==> f.Ok() && ToNumber(field, strNum).Finite?
    ensures p.Some? ==> ToNumber(field, strNum) == Finite(p.value)
  {
    if f.Ok() && ToNumber(field, strNum).Finite? then Some(ToNumber(field, strNum).r) else None
  }

  /** `Number(j.price)` of the Binance ticker. */
  function BinancePrice(f: Fetch, strNum: string -> Number): Option<real> {
    FinitePrice(f, if f.Reply? then Get(f.body, "price") else Undefined, strNum)
  }

  /** `Number(j[id]?.usd)` of the CoinGecko simple price. */
  function CoingeckoPrice(f: Fetch, id: string, strNum: string -> Number): Option<real> {
    FinitePrice(f, if f.Reply? then Get(Get(f.body, id), "usd") else Undefined, strNum)
  }

  /** A spot price and where it came from. */
  datatype Spot = Spot(symbol: string, price: real, source: string, ts: int)

  /** The outcome of asking the providers, and the URLs requested, in order. */
  datatype Lookup = Lookup(result: Result<Spot, string>, calls: seq<string>)

  /**
   * The provider part of `getSpot` for a supported symbol: Binance first; on
   * a failed request or a price that is not finite, CoinGecko; when both fail,
   * `price_fetch_failed:<sym>`. A spot carries the symbol and `ts == now`.
   */
  function FetchSpot(sym: string, now: int, fetch: string -> Fetch, strNum: string -> Number): (l: Lookup)
    requires sym in Assets
    ensures var binance := BinancePrice(fetch(BinanceUrl(Assets[sym].binance)), strNum);
      && (binance.Some? <==> l.calls == [BinanceUrl(Assets[sym].binance)])
      && (binance.Some? ==> l.result == Ok(Spot(sym, binance.value, "binance", now)))
    ensures var binance := BinancePrice(fetch(BinanceUrl(Assets[sym].binance)), strNum);
      var coingecko := CoingeckoPrice(fetch(CoingeckoUrl(Assets[sym].coingecko)), Assets[sym].coingecko, strNum);
      && (binance.None? ==> l.calls == [BinanceUrl(Assets[sym].binance), CoingeckoUrl(Assets[sym].coingecko)])
      && (binance.None? && coingecko.Some? ==> l.result == Ok(Spot(sym, coingecko.value, "coingecko", now)))
      && (binance.None? && coingecko.None? ==> l.result == Err("price_fetch_failed:" + sym))
    ensures l.result.Ok? ==> l.result.value.symbol == sym && l.result.value.ts == now
  {
    var a := Assets[sym];
    match BinancePrice(fetch(BinanceUrl(a.binance)), strNum)
    case Some(p) => Lookup(Ok(Spot(sym, p, "binance", now)), [BinanceUrl(a.binance)])
    case None =>
      var calls := [BinanceUrl(a.binance), CoingeckoUrl(a.coingecko)];
      match CoingeckoPrice(fetch(CoingeckoUrl(a.coingecko)), a.coingecko, strNum)
      case Some(p) => Lookup(Ok(Spot(sym, p, "coingecko", now)), calls)
      case None => Lookup(Err("price_fetch_failed:" + sym), calls)
  }

  /** The module's cache of spot prices by symbol. */
  class SpotCache {
    var entries: map<string, Spot>

    /** Every entry is a supported symbol's own spot. */
    ghost predicate Valid()
      reads this
    {
      forall k :: k in entries ==> entries[k].symbol == k && k in Assets
    }

    constructor ()
      ensures Valid() && entries == map[]
    {
      entries := map[];
    }

    /** A cached spot for `sym` younger than the cache period. */
    predicate Hit(sym: string, now: int)
      reads this
    {
      sym in entries && now - entries[sym].ts < CacheMs
    }

    /**
     * `getSpot`: the cached spot when it is young enough, without a request;
     * else `unsupported_symbol:<sym>` for a symbol outside the table, without
     * a request; else what the providers give, a spot being cached under its
     * symbol. The cache is otherwise unchanged. `calls` lists the requested
     * URLs in order.
     */
    method GetSpot(raw: Option<string>, now: int, fetch: string -> Fetch, strNum: string -> Number)
      returns (r: Result<Spot, string>, calls: seq<string>)
      requires Valid()
      modifies this
      ensures Valid()
      ensures old(Hit(Symbol(raw), now)) ==>
        r == Ok(old(entries)[Symbol(raw)]) && calls == [] && entries == old(entries)
      ensures !old(Hit(Symbol(raw), now)) && Symbol(raw) !in Assets ==>
        r == Err("unsupported_symbol:" + Symbol(raw)) && calls == [] && entries == old(entries)
      ensures !old(Hit(Symbol(raw), now)) && Symbol(raw) in Assets ==>
        && Lookup(r, calls) == FetchSpot(Symbol(raw), now, fetch, strNum)
        && entries == (if r.Ok? then old(entries)[Symbol(raw) := r.value] else old(entries))
      ensures r.Ok? ==> r.value.symbol == Symbol(raw) && Symbol(raw) in Assets && now - r.value.ts < CacheMs
      ensures r.Ok? ==> Symbol(raw) in entries && entries[Symbol(raw)] == r.value
    {
      var sym := Symbol(raw);
      if Hit(sym, now) {
        return Ok(entries[sym]), [];
      }
      if sym !in Assets {
        return Err("unsupported_symbol:" + sym), [];
      }
      var l := FetchSpot(sym, now, fetch, strNum);
      r, calls := l.result, l.calls;
      if r.Ok? {
        entries := entries[sym := r.value];
      }
    }
  }

  /**
   * A second lookup of the same symbol while the spot a first lookup returned
   * is still younger than the cache period returns that same spot and makes
   * no request.
   */
  method GetSpotTwice(cache: SpotCache, raw: Option<string>, now: int, later: int,
                      fetch: string -> Fetch, strNum: string -> Number)
    returns (first: Result<Spot, string>, second: Result<Spot, string>, laterCalls: seq<string>)
    requires cache.Valid()
    modifies cache
    ensures first.Ok? && later - first.value.ts < CacheMs ==> second == first && laterCalls == []
  {
    var calls;
    first, calls := cache.GetSpot(raw, now, fetch, strNum);
    ghost var sym := Symbol(raw);
    assert first.Ok? && later - first.value.ts < CacheMs ==> cache.Hit(sym, later);
    second, laterCalls := cache.GetSpot(raw, later, fetch, strNum);
  }

  /** The first of `keys` that occurs in `u`. */
  function FirstContained(u: string, keys: seq<string>): (r: Option<string>)
    ensures r.Some? ==> r.value in keys && Contains(u, r.value)
    ensures r.None? <==> forall k :: k in keys ==> !Contains(u, k)
  {
    if |keys| == 0 then None
    else if Contains(u, keys[0]) then Some(keys[0])
    else FirstContained(u, keys[1..])
  }

  /** The key that wins is the first contained one in key order. */
  lemma {:induction false} FirstContainedAt(u: string, keys: seq<string>, i: nat)
    requires i < |keys| && Contains(u, keys[i])
    requires forall j :: 0 <= j < i ==> !Contains(u, keys[j])
    ensures FirstContained(u, keys) == Some(keys[i])
  {
    if i > 0 {
      FirstContainedAt(u, keys[1..], i - 1);
    }
  }

  /** The length of the run of letters A–Z starting at `i`. */
  function LetterRun(u: string, i: nat): (n: nat)
    requires i <= |u|
    ensures i + n <= |u|
    ensures forall k :: i <= k < i + n ==> IsUpperAscii(u[k])
    ensures i + n == |u| || !IsUpperAscii(u[i + n])
    decreases |u| - i
  {
    if i < |u| && IsUpperAscii(u[i]) then 1 + LetterRun(u, i + 1) else 0
  }

  /**
   * The pattern `\b([A-Z]{2,6})\/USDT\b` matches at `i` with `base` as its
   * group: a word boundary, two to six letters, `/USDT`, a word boundary.
   */
  predicate PairAt(u: string, i: int, base: string) {
    && 2 <= |base| <= 6
    && (forall k :: 0 <= k < |base| ==> IsUpperAscii(base[k]))
    && 0 <= i && i + |base| + 5 <= |u|
    && u[i..i + |base|] == base
    && u[i + |base|..i + |base| + 5] == "/USDT"
    && (i == 0 || !IsWordChar(u[i - 1]))
    && (i + |base| + 5 == |u| || !IsWordChar(u[i + |base| + 5]))
  }

  /** A match at `i` takes the whole run of letters there: the run is ended by the slash. */
  lemma RunOfPair(u: string, i: nat, base: string)
    requires i <= |u| && PairAt(u, i, base)
    ensures LetterRun(u, i) == |base|
  {
    var n := LetterRun(u, i);
    var m := |base|;
    assert forall k :: i <= k < i + m ==> u[k] == u[i..i + m][k - i] == base[k - i];
    assert u[i + m] == u[i + m..i + m + 5][0] == '/';
  }

  /** The group the pattern captures when it matches at `i`. */
  function PairBaseAt(u: string, i: nat): (r: Option<string>)
    requires i <= |u|
    ensures r.Some? ==> PairAt(u, i, r.value)
    ensures forall base :: PairAt(u, i, base) ==> r == Some(base)
  {
    var n := LetterRun(u, i);
    var r := if && (i == 0 || !IsWordChar(u[i - 1]))
                 && 2 <= n <= 6 && i + n + 5 <= |u| && u[i + n..i + n + 5] == "/USDT"
                 && (i + n + 5 == |u| || !IsWordChar(u[i + n + 5]))
             then Some(u[i..i + n]) else None;
    forall base | PairAt(u, i, base) ensures r == Some(base) {
      RunOfPair(u, i, base);
    }
    r
  }

  /** The pattern matches at `j` with group `base`, and at no position from `i` up to `j`. */
  ghost predicate LeftmostAt(u: string, i: nat, j: nat, base: string) {
    && i <= j <= |u|
    && PairAt(u, j, base)
    && forall k, b :: i <= k < j ==> !PairAt(u, k, b)
  }

  /** `u.match(..)` from position `i` on: the group of the leftmost match. */
  function FindPair(u: string, i: nat): (r: Option<string>)
    requires i <= |u|
    ensures r.Some? ==> exists j :: LeftmostAt(u, i, j, r.value)
    ensures r.None? ==> forall j, base :: i <= j <= |u| ==> !PairAt(u, j, base)
    decreases |u| - i
  {
    match PairBaseAt(u, i)
    case Some(base) =>
      assert LeftmostAt(u, i, i, base);
      Some(base)
    case None =>
      if i == |u| then None
      else
        var r := FindPair(u, i + 1);
        assert forall b :: !PairAt(u, i, b);
        if r.Some? then LeftmostExtends(u, i, i + 1, r.value); r else r
  }

  /** A leftmost match from `i + 1` is leftmost from `i` when nothing matches at `i`. */
  lemma LeftmostExtends(u: string, i: nat, next: nat, base: string)
    requires next == i + 1
    requires exists j :: LeftmostAt(u, next, j, base)
    requires forall b :: !PairAt(u, i, b)
    ensures exists j :: LeftmostAt(u, i, j, base)
  {
    var j :| LeftmostAt(u, next, j, base);
    assert LeftmostAt(u, i, j, base);
  }

  /** The pattern captures at most one group at a position. */
  lemma PairUnique(u: string, j: nat, b1: string, b2: string)
    requires j <= |u| && PairAt(u, j, b1) && PairAt(u, j, b2)
    ensures b1 == b2
  {
    var r := PairBaseAt(u, j);
  }

  /** The leftmost match wins. */
  lemma FindPairLeftmost(u: string, i: nat, j: nat, base: string)
    requires i <= j <= |u| && PairAt(u, j, base)
    requires forall k, b :: i <= k < j ==> !PairAt(u, k, b)
    ensures FindPair(u, i) == Some(base)
  {
    var r := FindPair(u, i);
    assert r.Some?;
    var j' :| LeftmostAt(u, i, j', r.value);
    assert j' == j;
    PairUnique(u, j, r.value, base);
  }

  /**
   * `detectSymbolFromText`: on the upper-cased text, the first supported
   * symbol it contains, in table order; else the base of the leftmost
   * `XX/USDT` pair; else `"SOL"`. The result is never empty and is all letters.
   */
  function DetectSymbolFromText(text: string): (sym: string)
    ensures IsSymbol(sym)
  {
    var u := Upper(text);
    match FirstContained(u, Keys)
    case Some(k) => KeysAreSymbols(); k
    case None =>
      match FindPair(u, 0)
      case Some(base) =>
        assert exists j :: LeftmostAt(u, 0, j, base);
        NormSymOfSymbol(base);
        NormSym(base)
      case None => "SOL"
  }

  /** The first supported symbol the upper-cased text contains, in table order, wins. */
  lemma DetectKeyFirst(text: string, i: nat)
    requires i < |Keys| && Contains(Upper(text), Keys[i])
    requires forall j :: 0 <= j < i ==> !Contains(Upper(text), Keys[j])
    ensures DetectSymbolFromText(text) == Keys[i]
  {
    FirstContainedAt(Upper(text), Keys, i);
  }

  /** Without a supported symbol in the text, the base of the leftmost `XX/USDT` pair is taken. */
  lemma DetectPairNext(text: string, j: nat, base: string)
    requires forall k :: k in Keys ==> !Contains(Upper(text), k)
    requires j <= |text| && PairAt(Upper(text), j, base)
    requires forall k, b :: 0 <= k < j ==> !PairAt(Upper(text), k, b)
    ensures DetectSymbolFromText(text) == base
  {
    var u := Upper(text);
    assert FirstContained(u, Keys).None?;
    FindPairLeftmost(u, 0, j, base);
    NormSymOfSymbol(base);
  }

  /** With neither a supported symbol nor a pair in the text, the answer is `"SOL"`. */
  lemma DetectDefault(text: string)
    requires forall k :: k in Keys ==> !Contains(Upper(text), k)
    requires forall j, base :: 0 <= j <= |text| ==> !PairAt(Upper(text), j, base)
    ensures DetectSymbolFromText(text) == "SOL"
  {
  }
}
