/**
 * The market snapshot of src/routes/market.js: a ten-second cache keyed by
 * `"mkt:" + symbol`, the Binance 24-hour ticker with a CoinGecko fallback,
 * and the text block a snapshot becomes inside a prompt.
 *
 * The providers are reached through `fetch`, a function from the request to
 * its outcome; `strNum` is the host's `Number(s)` on strings, `numStr` its
 * `String(n)`, and `iso` the `new Date().toISOString()` of the moment.
 */
module Market {
  import opened Wrappers
  import opened Text
  import opened Js

  /** How long a cached snapshot is served, in milliseconds. */
  const TtlMs: int := 10000

  /** The symbol used when the caller gives none. */
  const DefaultSymbol: string := "SOLUSDT"

  /** `num(x, d)`: `Number(x)` when it is finite, else `d`. */
  function NumOr(x: Value, d: real, strNum: string -> Number): (n: real)
    ensures ToNumber(x, strNum).Finite? ==> n == ToNumber(x, strNum).r
    ensures !ToNumber(x, strNum).Finite? ==> n == d
  {
    match ToNumber(x, strNum)
    case Finite(r) => r
    case _ => d
  }

  /** Missing, non-numeric and infinite readings all become the default. */
  lemma NumOrDefaults(strNum: string -> Number)
    ensures NumOr(Undefined, 0.0, strNum) == 0.0
    ensures NumOr(Num(NaN), 0.0, strNum) == 0.0 && NumOr(Num(PosInf), 0.0, strNum) == 0.0
    ensures forall r: real :: NumOr(Num(Finite(r)), 0.0, strNum) == r
  {
  }

  /** The two outbound requests, by what they ask for. */
  datatype Request = Ticker24h(symbol: string) | SimplePrice(id: string)

  /** A snapshot as either provider builds it. */
  datatype Snapshot = Snapshot(
    source: string,
    symbol: Value,
    price: real,
    change24h: real,
    high24h: real,
    low24h: real,
    volume24h: Option<real>,
    ts: string)

  /** Why a provider gave no snapshot: a rejected request or body, an HTTP error status, or a `null` JSON body. */
  datatype Failure = Thrown(message: string) | HttpError(provider: string, status: nat) | NullBody

  /** `binanceTicker`: the 24-hour ticker fields, with the requested symbol when the reply names none. */
  function BinanceTicker(symbol: string, f: Fetch, strNum: string -> Number, iso: string): (r: Result<Snapshot, Failure>)
    ensures r.Ok? <==> f.Ok() && !f.body.Null?
    ensures r.Ok? ==> r.value.source == "binance" && r.value.volume24h.Some? && r.value.ts == iso
    ensures r.Ok? ==> r.value.symbol == (if Truthy(Get(f.body, "symbol")) then Get(f.body, "symbol") else Str(symbol))
  {
    match f
    case Threw(m) => Err(Thrown(m))
    case Reply(status, j) =>
      if !f.Ok() then Err(HttpError("binance", status))
      else if j.Null? then Err(NullBody)
      else Ok(Snapshot(
        "binance",
        if Truthy(Get(j, "symbol")) then Get(j, "symbol") else Str(symbol),
        NumOr(Get(j, "lastPrice"), 0.0, strNum),
        NumOr(Get(j, "priceChangePercent"), 0.0, strNum) / 100.0,
        NumOr(Get(j, "highPrice"), 0.0, strNum),
        NumOr(Get(j, "lowPrice"), 0.0, strNum),
        Some(NumOr(Get(j, "volume"), 0.0, strNum)),
        iso))
  }

  /** The CoinGecko ids the fallback knows; every other symbol is looked up as Solana. */
  const CoingeckoIds: map<string, string> := map["SOLUSDT" := "solana", "BTCUSDT" := "bitcoin", "ETHUSDT" := "ethereum"]

  function CoingeckoId(symbol: string): (id: string)
    ensures symbol in CoingeckoIds ==> id == CoingeckoIds[symbol]
    ensures symbol !in CoingeckoIds ==> id == "solana"
  {
    if symbol in CoingeckoIds then CoingeckoIds[symbol] else "solana"
  }

  /** `coingeckoSimple`: the price, 24-hour change, high and low of the id's row, without a volume. */
  function CoingeckoSimple(symbol: string, f: Fetch, strNum: string -> Number, iso: string): (r: Result<Snapshot, Failure>)
    ensures r.Ok? <==> f.Ok() && !f.body.Null?
    ensures r.Ok? ==> r.value.source == "coingecko" && r.value.symbol == Str(symbol)
    ensures r.Ok? ==> r.value.volume24h.None? && r.value.ts == iso
  {
    match f
    case Threw(m) => Err(Thrown(m))
    case Reply(status, j) =>
      if !f.Ok() then Err(HttpError("coingecko", status))
      else if j.Null? then Err(NullBody)
      else
        var id := CoingeckoId(symbol);
        var row := if Truthy(Get(j, id)) then Get(j, id) else Obj(map[]);
        Ok(Snapshot(
          "coingecko",
          Str(symbol),
          NumOr(Get(row, "usd"), 0.0, strNum),
          NumOr(Get(row, "usd_24h_change"), 0.0, strNum) / 100.0,
          NumOr(Get(row, "usd_24h_high"), 0.0, strNum),
          NumOr(Get(row, "usd_24h_low"), 0.0, strNum),
          None,
          iso))
  }

  /** The cache key of a symbol. */
  function Key(symbol: string): string {
    "mkt:" + symbol
  }

  /** Different symbols never share a cache entry. */
  lemma KeyInjective(a: string, b: string)
    requires Key(a) == Key(b)
    ensures a == b
  {
    assert a == Key(a)[4..] && b == Key(b)[4..];
  }

  datatype Entry = Entry(ts: int, data: Snapshot)

  /** The module's snapshot cache. */
  class MarketCache {
    var entries: map<string, Entry>

    constructor ()
      ensures entries == map[]
    {
      entries := map[];
    }

    /** `cacheGet`: the stored snapshot when there is one younger than the TTL, else nothing. */
    function Lookup(key: string, now: int): (r: Option<Snapshot>)
      reads this
      ensures r.Some? <==> key in entries && now - entries[key].ts < TtlMs
      ensures r.Some? ==> r.value == entries[key].data
    {
      if key in entries && now - entries[key].ts < TtlMs then Some(entries[key].data) else None
    }

    /** `cacheSet`: stores the snapshot under the key, stamped with the time of storing; no other key changes. */
    method Store(key: string, data: Snapshot, now: int)
      modifies this
      ensures entries == old(entries)[key := Entry(now, data)]
    {
      entries := entries[key := Entry(now, data)];
    }

    /**
     * `getMarketSnapshot`: a cached snapshot without a request; else the
     * Binance ticker, cached on success; else, whatever made Binance fail,
     * the CoinGecko fallback, cached on success, with its failure passed to
     * the caller and the cache left as it was. `now` is the clock when the
     * cache is read and `later` when it is written; `calls` lists the
     * requests in order.
     */
    method GetSnapshot(symbol: Option<string>, now: int, later: int, fetch: Request -> Fetch,
                       strNum: string -> Number, iso: string)
      returns (r: Result<Snapshot, Failure>, calls: seq<Request>)
      modifies this
      ensures var sym := if symbol.Some? then symbol.value else DefaultSymbol;
        old(Lookup(Key(sym), now)).Some? ==>
          r == Ok(old(Lookup(Key(sym), now)).value) && calls == [] && entries == old(entries)
      ensures var sym := if symbol.Some? then symbol.value else DefaultSymbol;
        var viaBinance := BinanceTicker(sym, fetch(Ticker24h(sym)), strNum, iso);
        old(Lookup(Key(sym), now)).None? && viaBinance.Ok? ==>
          r == viaBinance && calls == [Ticker24h(sym)] && entries == old(entries)[Key(sym) := Entry(later, viaBinance.value)]
      ensures var sym := if symbol.Some? then symbol.value else DefaultSymbol;
        var viaBinance := BinanceTicker(sym, fetch(Ticker24h(sym)), strNum, iso);
        var viaCoingecko := CoingeckoSimple(sym, fetch(SimplePrice(CoingeckoId(sym))), strNum, iso);
        old(Lookup(Key(sym), now)).None? && viaBinance.Err? ==>
          && r == viaCoingecko
          && calls == [Ticker24h(sym), SimplePrice(CoingeckoId(sym))]
          && entries == (if viaCoingecko.Ok? then old(entries)[Key(sym) := Entry(later, viaCoingecko.value)] else old(entries))
    {
      var sym := if symbol.Some? then symbol.value else DefaultSymbol;
      var key := Key(sym);
      var hit := Lookup(key, now);
      if hit.Some? {
        return Ok(hit.value), [];
      }
      calls := [Ticker24h(sym)];
      r := BinanceTicker(sym, fetch(Ticker24h(sym)), strNum, iso);
      if r.Ok? {
        Store(key, r.value, later);
        return;
      }
      calls := calls + [SimplePrice(CoingeckoId(sym))];
      r := CoingeckoSimple(sym, fetch(SimplePrice(CoingeckoId(sym))), strNum, iso);
      if r.Ok? {
        Store(key, r.value, later);
      }
    }
  }

  /** The text of an unavailable snapshot. */
  const Unavailable: string := "market_snapshot: unavailable"

  /** The lines of the prompt block of a snapshot. */
  function PromptLines(s: Snapshot, numStr: Number -> string): (lines: seq<string>)
    ensures |lines| == 10 && lines[0] == "market_snapshot:" && lines[1] == "{" && lines[9] == "}"
  {
    [ "market_snapshot:",
      "{",
      "  symbol: \"" + ToString(s.symbol, numStr) + "\",",
      "  source: \"" + s.source + "\",",
      "  ts_iso: \"" + s.ts + "\",",
      "  price_usd: " + numStr(Finite(s.price)) + ",",
      "  change_24h: " + numStr(Finite(s.change24h)) + ",",
      "  high_24h: " + numStr(Finite(s.high24h)) + ",",
      "  low_24h: " + numStr(Finite(s.low24h)),
      "}" ]
  }

  /** `formatSnapshotForPrompt`: the unavailable line, or the block's lines joined by newlines. */
  function FormatForPrompt(s: Option<Snapshot>, numStr: Number -> string): (r: string)
    ensures s.None? ==> r == Unavailable
    ensures s.Some? ==> StartsWith(r, "market_snapshot:\n{\n")
  {
    if s.None? then Unavailable
    else
      var lines := PromptLines(s.value, numStr);
      assert Join(lines, "\n") == lines[0] + "\n" + (lines[1] + "\n" + Join(lines[2..], "\n"));
      Join(lines, "\n")
  }

  /** No field of the snapshot, as printed, contains a line break. */
  predicate SingleLineFields(s: Snapshot, numStr: Number -> string) {
    && '\n' !in ToString(s.symbol, numStr) && '\n' !in s.source && '\n' !in s.ts
    && '\n' !in numStr(Finite(s.price)) && '\n' !in numStr(Finite(s.change24h))
    && '\n' !in numStr(Finite(s.high24h)) && '\n' !in numStr(Finite(s.low24h))
  }

  /** Each line of the block of a snapshot whose fields are single lines is itself a single line. */
  lemma LinesAreSingle(s: Snapshot, numStr: Number -> string)
    requires SingleLineFields(s, numStr)
    ensures forall p :: p in PromptLines(s, numStr) ==> '\n' !in p
  {
    var lines := PromptLines(s, numStr);
    TextLinesAreSingle(s, numStr);
    NumberLinesAreSingle(s, numStr);
    forall i | 0 <= i < |lines| ensures '\n' !in lines[i] {
    }
  }

  lemma TextLinesAreSingle(s: Snapshot, numStr: Number -> string)
    requires SingleLineFields(s, numStr)
    ensures forall i :: 2 <= i < 5 ==> '\n' !in PromptLines(s, numStr)[i]
  {
    NoBreakIn("  symbol: \"", ToString(s.symbol, numStr), "\",");
    NoBreakIn("  source: \"", s.source, "\",");
    NoBreakIn("  ts_iso: \"", s.ts, "\",");
  }

  lemma NumberLinesAreSingle(s: Snapshot, numStr: Number -> string)
    requires SingleLineFields(s, numStr)
    ensures forall i :: 5 <= i < 9 ==> '\n' !in PromptLines(s, numStr)[i]
  {
    NoBreakIn("  price_usd: ", numStr(Finite(s.price)), ",");
    NoBreakIn("  change_24h: ", numStr(Finite(s.change24h)), ",");
    NoBreakIn("  high_24h: ", numStr(Finite(s.high24h)), ",");
    NoBreakIn("  low_24h: ", numStr(Finite(s.low24h)), "");
    assert "  low_24h: " + numStr(Finite(s.low24h)) + "" == PromptLines(s, numStr)[8];
  }

  lemma NoBreakIn(a: string, x: string, b: string)
    requires '\n' !in a && '\n' !in x && '\n' !in b
    ensures '\n' !in a + x + b
  {
  }

  /**
   * A snapshot block reads back line by line: splitting it on newlines gives
   * its ten lines, the first being the `market_snapshot:` header.
   */
  lemma FormatReadsBack(s: Snapshot, numStr: Number -> string)
    requires SingleLineFields(s, numStr)
    ensures Split(FormatForPrompt(Some(s), numStr), '\n') == PromptLines(s, numStr)
  {
    LinesAreSingle(s, numStr);
    SplitJoin(PromptLines(s, numStr), '\n');
  }

  /** A snapshot block is never the unavailable line: the header is followed by a line break. */
  lemma FormatDistinguishable(s: Snapshot, numStr: Number -> string)
    ensures FormatForPrompt(Some(s), numStr) != Unavailable
  {
    var t := FormatForPrompt(Some(s), numStr);
    assert t[16] == '\n' && Unavailable[16] == ' ';
  }
}
