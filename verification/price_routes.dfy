/**
 * The price routes of src/routes/price.js: the single-symbol quote, the
 * comma-list quote, and the order in which the router tries them.
 *
 * CoinGecko is reached through `fetch`, a function from the list of ids
 * requested to the outcome; `numStr` is the host's `String(n)`.
 */
module PriceRoutes {
  import opened Wrappers
  import opened Text
  import opened Js

  const CoingeckoIds: map<string, string> := map[
    "BTC" := "bitcoin",
    "ETH" := "ethereum",
    "SOL" := "solana",
    "BNB" := "binancecoin",
    "AVAX" := "avalanche-2",
    "MATIC" := "matic-network",
    "DOGE" := "dogecoin"
  ]

  /** The quote currency. */
  const Vs: string := "usd"

  /** No two symbols share an id, so an id names its symbol back. */
  lemma IdsInjective()
    ensures forall a, b :: a in CoingeckoIds && b in CoingeckoIds && CoingeckoIds[a] == CoingeckoIds[b] ==> a == b
  {
  }

  /** The replies of the two handlers. */
  datatype Response =
    | Unsupported(sym: string)
    | NoPrice
    | PriceFailed(detail: string)
    | Quote(symbol: string, price: Value)
    | SymbolsRequired
    | NoSupportedSymbols
    | Prices(out: map<string, Value>)
  {
    function Status(): nat {
      match this
      case Unsupported(_) => 400
      case SymbolsRequired => 400
      case NoSupportedSymbols => 400
      case NoPrice => 502
      case PriceFailed(_) => 500
      case _ => 200
    }
  }

  /** `fetchSimple`: the JSON body of a 2xx reply; otherwise the error the handler reports. */
  function FetchSimple(f: Fetch): (r: Result<Value, string>)
    ensures r.Ok? <==> f.Ok()
    ensures r.Ok? ==> r.value == f.body
    ensures f.Reply? && !f.Ok() ==> r == Err("coingecko " + NatToString(f.status))
  {
    match f
    case Threw(m) => Err(if m != "" then m else "Error")
    case Reply(status, body) => if f.Ok() then Ok(body) else Err("coingecko " + NatToString(status))
  }

  /** `data?.[id]?.[VS]`. */
  function PriceOf(data: Value, id: string): Value {
    Get(Get(data, id), Vs)
  }

  /** A reply together with the id lists sent to CoinGecko. */
  datatype Handled = Handled(response: Response, requests: seq<seq<string>>)

  /**
   * `GET /price/:symbol`: the upper-cased symbol must be in the table (400
   * `unsupported_symbol` otherwise, without a request); one request for its
   * id; a failed request is 500 `price_failed`, a missing price 502
   * `no_price`, and otherwise the quote.
   */
  function QuoteHandler(param: string, fetch: seq<string> -> Fetch): (h: Handled)
    ensures h.response.Unsupported? <==> Upper(param) !in CoingeckoIds
    ensures h.response.Unsupported? ==> h.response.sym == Upper(param) && h.requests == []
    ensures !h.response.Unsupported? ==> h.requests == [[CoingeckoIds[Upper(param)]]]
    ensures h.response.Quote? ==>
      && h.response.symbol == Upper(param)
      && fetch([CoingeckoIds[Upper(param)]]).Ok()
      && h.response.price == PriceOf(fetch([CoingeckoIds[Upper(param)]]).body, CoingeckoIds[Upper(param)])
      && !Nullish(h.response.price)
    ensures h.response == NoPrice <==>
      Upper(param) in CoingeckoIds && fetch([CoingeckoIds[Upper(param)]]).Ok()
      && Nullish(PriceOf(fetch([CoingeckoIds[Upper(param)]]).body, CoingeckoIds[Upper(param)]))
    ensures h.response.PriceFailed? <==> Upper(param) in CoingeckoIds && !fetch([CoingeckoIds[Upper(param)]]).Ok()
    ensures h.response.PriceFailed? ==> FetchSimple(fetch([CoingeckoIds[Upper(param)]])) == Err(h.response.detail)
    ensures var sym := Upper(param);
      sym in CoingeckoIds && fetch([CoingeckoIds[sym]]).Ok() && !Nullish(PriceOf(fetch([CoingeckoIds[sym]]).body, CoingeckoIds[sym]))
      ==> h.response == Quote(sym, PriceOf(fetch([CoingeckoIds[sym]]).body, CoingeckoIds[sym]))
  {
    var sym := Upper(param);
    if sym !in CoingeckoIds then Handled(Unsupported(sym), [])
    else
      var id := CoingeckoIds[sym];
      match FetchSimple(fetch([id]))
      case Err(detail) => Handled(PriceFailed(detail), [[id]])
      case Ok(data) =>
        var price := PriceOf(data, id);
        if Nullish(price) then Handled(NoPrice, [[id]]) else Handled(Quote(sym, price), [[id]])
  }

  /** `s.trim().toUpperCase()` on every entry. */
  function UpperTrimAll(parts: seq<string>): (r: seq<string>)
    ensures |r| == |parts|
    ensures forall i :: 0 <= i < |parts| ==> r[i] == Upper(Trim(parts[i]))
  {
    if |parts| == 0 then [] else [Upper(Trim(parts[0]))] + UpperTrimAll(parts[1..])
  }

  /** Trimming and upper-casing put no comma into an entry. */
  lemma UpperTrimNoComma(p: string)
    requires ',' !in p
    ensures ',' !in Upper(Trim(p))
  {
    TrimKeepsAbsence(p, ',');
    var t := Trim(p);
    forall i | 0 <= i < |t| ensures Upper(t)[i] != ',' {
      assert t[i] != ',';
    }
  }

  /** `String(req.query.symbols || "")`. */
  function QueryText(query: Value, numStr: Number -> string): (text: string)
    ensures query.Str? ==> text == query.s
  {
    if Truthy(query) then ToString(query, numStr) else ""
  }

  /** Entries trimmed and upper-cased keep out the separator the split removed. */
  lemma UpperTrimAllNoComma(parts: seq<string>)
    requires forall p :: p in parts ==> ',' !in p
    ensures forall s :: s in UpperTrimAll(parts) ==> ',' !in s
  {
    var cleaned := UpperTrimAll(parts);
    forall i | 0 <= i < |cleaned| ensures ',' !in cleaned[i] {
      UpperTrimNoComma(parts[i]);
    }
  }

  /** The symbols query: split on commas, each entry trimmed and upper-cased, empty entries dropped. */
  function ParseSymbols(query: Value, numStr: Number -> string): (list: seq<string>)
    ensures forall s :: s in list ==> s != "" && ',' !in s
  {
    var parts := Split(QueryText(query, numStr), ',');
    UpperTrimAllNoComma(parts);
    NonEmpty(UpperTrimAll(parts))
  }

  /** A clean entry: non-empty, comma-free, trimmed, upper-case. */
  predicate Clean(s: string) {
    s != "" && ',' !in s && Trim(s) == s && forall i :: 0 <= i < |s| ==> !IsLowerAscii(s[i])
  }

  lemma {:induction false} UpperTrimAllFixed(parts: seq<string>)
    requires forall p :: p in parts ==> Clean(p)
    ensures UpperTrimAll(parts) == parts
  {
    if |parts| > 0 {
      assert Clean(parts[0]);
      assert Upper(parts[0]) == parts[0];
      UpperTrimAllFixed(parts[1..]);
    }
  }

  /** A list of clean symbols written as `?symbols=A,B,C` is parsed back to the same list. */
  lemma ParseSymbolsJoin(symbols: seq<string>, numStr: Number -> string)
    requires |symbols| >= 1 && forall s :: s in symbols ==> Clean(s)
    ensures ParseSymbols(Str(Join(symbols, [','])), numStr) == symbols
  {
    var text := Join(symbols, [',']);
    assert QueryText(Str(text), numStr) == text;
    SplitJoin(symbols, ',');
    UpperTrimAllFixed(symbols);
    NonEmptyFixed(symbols);
  }

  /** The ids of the supported symbols of the list, in list order. */
  function SupportedIds(list: seq<string>): (ids: seq<string>)
    ensures |ids| <= |list|
    ensures forall id :: id in ids <==> exists sym :: sym in list && sym in CoingeckoIds && CoingeckoIds[sym] == id
  {
    if |list| == 0 then []
    else
      var rest := SupportedIds(list[1..]);
      assert forall sym :: sym in list <==> sym == list[0] || sym in list[1..];
      if list[0] in CoingeckoIds then [CoingeckoIds[list[0]]] + rest else rest
  }

  /**
   * The ids follow the list piece by piece, in list order and with one id per
   * supported entry, repeats included.
   */
  lemma {:induction false} SupportedIdsAppend(a: seq<string>, b: seq<string>)
    ensures SupportedIds(a + b) == SupportedIds(a) + SupportedIds(b)
  {
    if |a| > 0 {
      assert (a + b)[0] == a[0];
      assert (a + b)[1..] == a[1..] + b;
      SupportedIdsAppend(a[1..], b);
    } else {
      assert a + b == b;
    }
  }

  /** A repeated symbol is asked for twice: `?symbols=SOL,SOL` requests `solana` twice. */
  lemma RepeatedSymbolRepeatsId()
    ensures SupportedIds(["SOL", "SOL"]) == ["solana", "solana"]
  {
    SupportedIdsAppend(["SOL"], ["SOL"]);
    assert ["SOL"] + ["SOL"] == ["SOL", "SOL"];
    assert ["SOL"][1..] == [];
  }

  /**
   * The loop collecting `ids` and `mapBack`: every supported symbol's id, in
   * list order, and for every id the symbol it came from.
   */
  method CollectIds(list: seq<string>) returns (ids: seq<string>, mapBack: map<string, string>)
    ensures ids == SupportedIds(list)
    ensures forall id :: id in mapBack <==> id in ids
    ensures forall id :: id in mapBack ==> mapBack[id] in list && mapBack[id] in CoingeckoIds && CoingeckoIds[mapBack[id]] == id
  {
    ids := [];
    mapBack := map[];
    var i := 0;
    while i < |list|
      invariant 0 <= i <= |list|
      invariant ids + SupportedIds(list[i..]) == SupportedIds(list)
      invariant forall id :: id in mapBack <==> id in ids
      invariant forall id :: id in mapBack ==>
        mapBack[id] in list[..i] && mapBack[id] in CoingeckoIds && CoingeckoIds[mapBack[id]] == id
    {
      var sym := list[i];
      assert list[i..] == [sym] + list[i + 1..];
      if sym in CoingeckoIds {
        var id := CoingeckoIds[sym];
        ids := ids + [id];
        mapBack := mapBack[id := sym];
      }
      i := i + 1;
    }
    assert list[..i] == list;
  }

  /** No other id in the list maps back to the symbol `id` maps back to. */
  predicate SoleSource(ids: seq<string>, mapBack: map<string, string>, id: string)
    requires id in mapBack && forall other :: other in ids ==> other in mapBack
  {
    forall other :: other in ids && mapBack[other] == mapBack[id] ==> other == id
  }

  /**
   * The loop building `out`: for every id whose price is not null or
   * undefined, the price under the id's symbol.
   */
  method Assemble(ids: seq<string>, mapBack: map<string, string>, data: Value) returns (out: map<string, Value>)
    requires forall id :: id in ids ==> id in mapBack
    ensures forall sym :: sym in out <==> exists id :: id in ids && mapBack[id] == sym && !Nullish(PriceOf(data, id))
    ensures forall id :: id in ids && !Nullish(PriceOf(data, id)) && SoleSource(ids, mapBack, id) ==> out[mapBack[id]] == PriceOf(data, id)
  {
    out := map[];
    var i := 0;
    while i < |ids|
      invariant 0 <= i <= |ids|
      invariant forall sym :: sym in out <==> exists id :: id in ids[..i] && mapBack[id] == sym && !Nullish(PriceOf(data, id))
      invariant forall id :: id in ids[..i] && !Nullish(PriceOf(data, id)) && SoleSource(ids, mapBack, id) ==> out[mapBack[id]] == PriceOf(data, id)
    {
      var id := ids[i];
      var p := PriceOf(data, id);
      assert ids[..i + 1] == ids[..i] + [id];
      if !Nullish(p) {
        out := out[mapBack[id] := p];
      }
      i := i + 1;
    }
    assert ids[..i] == ids;
  }

  /**
   * The answer object for the listed symbols: exactly the supported ones
   * whose price is not null or undefined, each under its own price.
   */
  predicate Answers(list: seq<string>, data: Value, out: map<string, Value>) {
    && (forall sym :: sym in out ==>
          sym in list && sym in CoingeckoIds && out[sym] == PriceOf(data, CoingeckoIds[sym]) && !Nullish(out[sym]))
    && (forall sym :: sym in list && sym in CoingeckoIds && !Nullish(PriceOf(data, CoingeckoIds[sym])) ==> sym in out)
  }

  /** What the two loops establish together is the answer object for the list. */
  lemma AssembledAnswers(list: seq<string>, ids: seq<string>, mapBack: map<string, string>, data: Value, out: map<string, Value>)
    requires ids == SupportedIds(list)
    requires forall id :: id in mapBack <==> id in ids
    requires forall id :: id in mapBack ==> mapBack[id] in list && mapBack[id] in CoingeckoIds && CoingeckoIds[mapBack[id]] == id
    requires forall sym :: sym in out <==> exists id :: id in ids && mapBack[id] == sym && !Nullish(PriceOf(data, id))
    requires forall id :: id in ids && !Nullish(PriceOf(data, id)) && SoleSource(ids, mapBack, id) ==> out[mapBack[id]] == PriceOf(data, id)
    ensures Answers(list, data, out)
  {
    IdsInjective();
    forall sym | sym in out
      ensures sym in list && sym in CoingeckoIds && out[sym] == PriceOf(data, CoingeckoIds[sym]) && !Nullish(out[sym])
    {
      var id :| id in ids && mapBack[id] == sym && !Nullish(PriceOf(data, id));
      assert id == CoingeckoIds[sym];
      assert SoleSource(ids, mapBack, id);
    }
    forall sym | sym in list && sym in CoingeckoIds && !Nullish(PriceOf(data, CoingeckoIds[sym]))
      ensures sym in out
    {
      var id := CoingeckoIds[sym];
      assert id in ids;
      assert mapBack[id] == sym;
    }
  }

  /**
   * The contract of `GET /price/simple` for the parsed symbol list: 400
   * `symbols_required` for an empty list and 400 `no_supported_symbols` when
   * no symbol is in the table, both without a request; otherwise one request
   * for all supported ids, answered 500 `price_failed` when it fails and
   * else with the answer object for the list.
   */
  predicate SimpleReplies(list: seq<string>, fetch: seq<string> -> Fetch, h: Handled) {
    var ids := SupportedIds(list);
    && (h.response == SymbolsRequired <==> list == [])
    && (h.response == NoSupportedSymbols <==> list != [] && ids == [])
    && (h.response == SymbolsRequired || h.response == NoSupportedSymbols <==> h.requests == [])
    && (h.requests != [] ==> h.requests == [ids] && (h.response.Prices? || h.response.PriceFailed?))
    && (h.response.PriceFailed? ==> !fetch(ids).Ok())
    && (h.response.Prices? ==> fetch(ids).Ok() && Answers(list, fetch(ids).body, h.response.out))
  }

  /** The answer object from the loops over the collected ids. */
  method PricesFor(list: seq<string>, ids: seq<string>, mapBack: map<string, string>, data: Value) returns (out: map<string, Value>)
    requires ids == SupportedIds(list)
    requires forall id :: id in mapBack <==> id in ids
    requires forall id :: id in mapBack ==> mapBack[id] in list && mapBack[id] in CoingeckoIds && CoingeckoIds[mapBack[id]] == id
    ensures Answers(list, data, out)
  {
    out := Assemble(ids, mapBack, data);
    AssembledAnswers(list, ids, mapBack, data, out);
  }

  /** An empty list is answered 400 `symbols_required` without a request. */
  lemma RepliesEmpty(list: seq<string>, fetch: seq<string> -> Fetch)
    requires list == []
    ensures SimpleReplies(list, fetch, Handled(SymbolsRequired, []))
  {
  }

  /** A list with no supported symbol is answered 400 `no_supported_symbols` without a request. */
  lemma RepliesUnsupported(list: seq<string>, fetch: seq<string> -> Fetch)
    requires list != [] && SupportedIds(list) == []
    ensures SimpleReplies(list, fetch, Handled(NoSupportedSymbols, []))
  {
  }

  /** A failed request for the supported ids is answered 500 `price_failed`. */
  lemma RepliesFailed(list: seq<string>, fetch: seq<string> -> Fetch, detail: string)
    requires list != [] && SupportedIds(list) != [] && !fetch(SupportedIds(list)).Ok()
    ensures SimpleReplies(list, fetch, Handled(PriceFailed(detail), [SupportedIds(list)]))
  {
  }

  /** A successful request is answered with the answer object for the list. */
  lemma RepliesPrices(list: seq<string>, fetch: seq<string> -> Fetch, out: map<string, Value>)
    requires list != [] && SupportedIds(list) != [] && fetch(SupportedIds(list)).Ok()
    requires Answers(list, fetch(SupportedIds(list)).body, out)
    ensures SimpleReplies(list, fetch, Handled(Prices(out), [SupportedIds(list)]))
  {
  }

  /** The handler after parsing: the ids, the one request, and the answer. */
  method QuoteList(list: seq<string>, fetch: seq<string> -> Fetch) returns (h: Handled)
    requires list != []
    ensures SimpleReplies(list, fetch, h)
  {
    var ids, mapBack := CollectIds(list);
    if ids == [] {
      RepliesUnsupported(list, fetch);
      return Handled(NoSupportedSymbols, []);
    }
    var f := fetch(ids);
    match FetchSimple(f) {
      case Err(detail) =>
        RepliesFailed(list, fetch, detail);
        h := Handled(PriceFailed(detail), [ids]);
      case Ok(data) =>
        var out := PricesFor(list, ids, mapBack, data);
        RepliesPrices(list, fetch, out);
        h := Handled(Prices(out), [ids]);
    }
  }

  /** `GET /price/simple?symbols=...`. */
  method SimpleHandler(query: Value, fetch: seq<string> -> Fetch, numStr: Number -> string) returns (h: Handled)
    ensures SimpleReplies(ParseSymbols(query, numStr), fetch, h)
  {
    var list := ParseSymbols(query, numStr);
    if list == [] {
      RepliesEmpty(list, fetch);
      return Handled(SymbolsRequired, []);
    }
    h := QuoteList(list, fetch);
  }

  // ----- route order -----

  /** Which handler serves `GET /price/<segment>`. */
  datatype Route = ToQuote(param: string) | ToSimple | NotFound

  /**
   * The router as registered: `/price/:symbol` comes first and takes every
   * non-empty segment, `simple` included.
   */
  function RouteAsWritten(segment: string): (r: Route)
    ensures segment != "" ==> r == ToQuote(segment)
  {
    if segment != "" then ToQuote(segment) else NotFound
  }

  /**
   * The router with `/price/simple` registered first. Paths match without
   * regard to letter case, as the router's default is.
   */
  function RouteFixed(segment: string): (r: Route)
    ensures r == ToSimple <==> Lower(segment) == "simple"
  {
    if Lower(segment) == "simple" then ToSimple
    else if segment != "" then ToQuote(segment)
    else NotFound
  }

  /**
   * `GET /price/<segment>` as the routes are registered: every non-empty
   * segment is taken by the quote handler, so the list handler is never
   * reached.
   */
  function Dispatch(segment: string, fetch: seq<string> -> Fetch): (h: Option<Handled>)
    ensures h.None? <==> segment == ""
    ensures h.Some? ==> h.value == QuoteHandler(segment, fetch)
  {
    match RouteAsWritten(segment)
    case ToQuote(param) => Some(QuoteHandler(param, fetch))
    case _ => None
  }

  /** As registered, `/price/simple` is answered 400 `unsupported_symbol` for the symbol `SIMPLE`, whatever the query. */
  lemma SimpleShadowed(fetch: seq<string> -> Fetch)
    ensures RouteAsWritten("simple") == ToQuote("simple")
    ensures Dispatch("simple", fetch) == Some(Handled(Unsupported("SIMPLE"), []))
  {
    assert Upper("simple") == "SIMPLE";
  }

  /** With the list route first, `/price/simple` reaches it, and every supported symbol still reaches the quote handler. */
  lemma RouteReachesBoth(segment: string)
    requires segment != ""
    ensures RouteFixed("simple") == ToSimple
    ensures Upper(segment) in CoingeckoIds ==> RouteFixed(segment) == ToQuote(segment)
  {
    if Lower(segment) == "simple" {
      assert |segment| == 6;
      assert Upper(segment) == Upper(Lower(segment)) == "SIMPLE";
    }
  }

  /** `GET /price/<segment>` with `/price/simple` registered first: the handler `RouteFixed` picks serves it. */
  method DispatchFixed(segment: string, query: Value, fetch: seq<string> -> Fetch, numStr: Number -> string) returns (h: Option<Handled>)
    ensures RouteFixed(segment).ToQuote? ==> h == Some(QuoteHandler(segment, fetch))
    ensures RouteFixed(segment) == ToSimple ==> h.Some? && SimpleReplies(ParseSymbols(query, numStr), fetch, h.value)
    ensures RouteFixed(segment) == NotFound <==> h.None?
  {
    match RouteFixed(segment) {
      case ToQuote(param) => h := Some(QuoteHandler(param, fetch));
      case ToSimple =>
        var r := SimpleHandler(query, fetch, numStr);
        h := Some(r);
      case NotFound => h := None;
    }
  }
}
