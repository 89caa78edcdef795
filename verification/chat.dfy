/**
 * The chat route of src/routes/chat.js up to the language-model call: the
 * symbol detector, the spot lookup for the chart analyst, the choice of
 * system prompt and the composition of the user message.
 *
 * The spot lookup goes through `fetch`, a function from the CoinGecko id to
 * the outcome; `fixed2` is the host's `n.toFixed(2)` and `numStr` its
 * `String(n)`. The prompt texts themselves are not part of this model: a
 * system prompt is named by its kind, and the chart prompt by its price line.
 */
module Chat {
  import opened Wrappers
  import opened Text
  import opened Js

  /** The symbols the route knows, in the order the table declares them. */
  const SymKeys: seq<string> := ["BTC", "ETH", "SOL", "BNB", "AVAX", "MATIC", "XRP", "DOGE"]

  const SymMap: map<string, string> := map[
    "BTC" := "bitcoin",
    "ETH" := "ethereum",
    "SOL" := "solana",
    "BNB" := "binancecoin",
    "AVAX" := "avalanche-2",
    "MATIC" := "matic-network",
    "XRP" := "ripple",
    "DOGE" := "dogecoin"
  ]

  /** Three to five letters A–Z without a space: the shape of every known symbol. */
  predicate IsBase(s: string) {
    3 <= |s| <= 5 && forall i :: 0 <= i < |s| ==> IsUpperAscii(s[i])
  }

  lemma SymTable()
    ensures forall k :: k in SymKeys <==> k in SymMap
    ensures forall k :: k in SymMap ==> IsBase(k)
  {
    assert IsBase("BTC") && IsBase("ETH") && IsBase("SOL") && IsBase("BNB");
    assert IsBase("AVAX") && IsBase("MATIC") && IsBase("XRP") && IsBase("DOGE");
  }

  // ----- the pair pattern `\b([A-Z]{3,5})\s*\/?\s*(USDT|USD|PERP)\b` -----

  /** The first position from `i` on that is not white space. */
  function SkipSpaces(u: string, i: nat): (j: nat)
    requires i <= |u|
    ensures i <= j <= |u| && (j == |u| || !IsSpace(u[j]))
    ensures forall k :: i <= k < j ==> IsSpace(u[k])
    decreases |u| - i
  {
    if i < |u| && IsSpace(u[i]) then SkipSpaces(u, i + 1) else i
  }

  /** A word boundary right after a word character at `e - 1`. */
  predicate EndsWord(u: string, e: int) {
    e == |u| || (0 <= e < |u| && !IsWordChar(u[e]))
  }

  /** `(USDT|USD|PERP)\b` at position `t`. */
  predicate QuoteAt(u: string, t: nat) {
    t <= |u| &&
    ( (StartsWith(u[t..], "USDT") && EndsWord(u, t + 4))
      || (StartsWith(u[t..], "USD") && EndsWord(u, t + 3))
      || (StartsWith(u[t..], "PERP") && EndsWord(u, t + 4)))
  }

  /**
   * The separator between base and quote: the slash of the pattern, and, in
   * the corrected pattern, a dash as well.
   */
  predicate IsSep(c: char, dash: bool) {
    c == '/' || (dash && c == '-')
  }

  /**
   * `\s*\/?\s*(USDT|USD|PERP)\b` from position `p`. The quote begins with a
   * letter, so a match exists exactly when one exists with both runs of white
   * space taken whole; that is the form stated here.
   */
  predicate QuoteFollows(u: string, p: nat, dash: bool)
    requires p <= |u|
  {
    var q := SkipSpaces(u, p);
    QuoteAt(u, q) || (q < |u| && IsSep(u[q], dash) && QuoteAt(u, SkipSpaces(u, q + 1)))
  }

  /** The pattern matches at `i` with an `n`-letter base. */
  predicate BaseAt(u: string, i: nat, n: nat, dash: bool) {
    && i + n <= |u|
    && (i == 0 || (i <= |u| && !IsWordChar(u[i - 1])))
    && (forall k :: i <= k < i + n ==> IsUpperAscii(u[k]))
    && QuoteFollows(u, i + n, dash)
  }

  /** The group captured at `i`: the greedy `{3,5}` tries five letters first, then four, then three. */
  function MatchAt(u: string, i: nat, dash: bool): (r: Option<string>)
    requires i <= |u|
    ensures r.Some? ==> IsBase(r.value) && BaseAt(u, i, |r.value|, dash) && r.value == u[i..i + |r.value|]
    ensures r.None? <==> forall n :: 3 <= n <= 5 ==> !BaseAt(u, i, n, dash)
  {
    if BaseAt(u, i, 5, dash) then BaseAtIsBase(u, i, 5, dash); Some(u[i..i + 5])
    else if BaseAt(u, i, 4, dash) then BaseAtIsBase(u, i, 4, dash); Some(u[i..i + 4])
    else if BaseAt(u, i, 3, dash) then BaseAtIsBase(u, i, 3, dash); Some(u[i..i + 3])
    else None
  }

  /** The letters a match spans have the shape of a symbol. */
  lemma BaseAtIsBase(u: string, i: nat, n: nat, dash: bool)
    requires 3 <= n <= 5 && BaseAt(u, i, n, dash)
    ensures IsBase(u[i..i + n]) && |u[i..i + n]| == n
  {
    var r := u[i..i + n];
    forall k | 0 <= k < n ensures IsUpperAscii(r[k]) {
      assert r[k] == u[i + k];
    }
  }

  /** The pattern matches at `j` and at no position from `i` up to `j`. */
  ghost predicate LeftmostMatch(u: string, i: nat, j: nat, dash: bool) {
    && i <= j <= |u|
    && MatchAt(u, j, dash).Some?
    && forall k :: i <= k < j ==> MatchAt(u, k, dash).None?
  }

  /** `U.match(..)[1]`: the group of the leftmost match from `i` on. */
  function FirstMatch(u: string, i: nat, dash: bool): (r: Option<string>)
    requires i <= |u|
    ensures r.Some? ==> IsBase(r.value)
    ensures r.Some? ==> exists j :: LeftmostMatch(u, i, j, dash) && MatchAt(u, j, dash) == r
    ensures r.None? <==> forall j :: i <= j <= |u| ==> MatchAt(u, j, dash).None?
    decreases |u| - i
  {
    var m := MatchAt(u, i, dash);
    if m.Some? then
      assert LeftmostMatch(u, i, i, dash);
      m
    else if i == |u| then None
    else
      var r := FirstMatch(u, i + 1, dash);
      if r.Some? then LeftmostMatchExtends(u, i, dash, r); r else r
  }

  lemma LeftmostMatchExtends(u: string, i: nat, dash: bool, r: Option<string>)
    requires i < |u| && MatchAt(u, i, dash).None?
    requires exists j :: LeftmostMatch(u, i + 1, j, dash) && MatchAt(u, j, dash) == r
    ensures exists j :: LeftmostMatch(u, i, j, dash) && MatchAt(u, j, dash) == r
  {
    var j :| LeftmostMatch(u, i + 1, j, dash) && MatchAt(u, j, dash) == r;
    assert LeftmostMatch(u, i, j, dash);
  }

  /** The leftmost matching position decides the group. */
  lemma {:induction false} FirstMatchLeftmost(u: string, i: nat, j: nat, dash: bool)
    requires LeftmostMatch(u, i, j, dash)
    ensures FirstMatch(u, i, dash) == MatchAt(u, j, dash)
    decreases j - i
  {
    if i < j {
      assert MatchAt(u, i, dash).None?;
      assert LeftmostMatch(u, i + 1, j, dash);
      FirstMatchLeftmost(u, i + 1, j, dash);
    }
  }

  // ----- the word scan -----

  /** `s` occurs space-delimited: inside spaces, at the start before a space, or at the end after one. */
  predicate Mentioned(u: string, s: string) {
    Contains(u, " " + s + " ") || StartsWith(u, s + " ") || EndsWith(u, " " + s)
  }

  /** The first of `keys` mentioned in `u`. */
  function FirstMentioned(u: string, keys: seq<string>): (r: Option<string>)
    ensures r.Some? ==> r.value in keys && Mentioned(u, r.value)
    ensures r.None? <==> forall k :: k in keys ==> !Mentioned(u, k)
  {
    if |keys| == 0 then None
    else if Mentioned(u, keys[0]) then Some(keys[0])
    else FirstMentioned(u, keys[1..])
  }

  /** A text without a space mentions nothing. */
  lemma NoSpaceNoMention(u: string, s: string)
    requires ' ' !in u
    ensures !Mentioned(u, s)
  {
    ContainsNeedsHead(u, " " + s + " ");
    if |s| + 1 <= |u| {
      assert (s + " ")[|s|] == ' ' && u[..|s| + 1][|s|] == u[|s|];
      assert (" " + s)[0] == ' ' && u[|u| - |s| - 1..][0] == u[|u| - |s| - 1];
    }
  }

  // ----- detection -----

  /**
   * `detectSymbol` on the upper-cased text: the base of the leftmost pair
   * match when that base is a known symbol; otherwise the first known symbol
   * the word scan finds; otherwise nothing. `dash` selects the corrected pair
   * pattern, which also accepts a dash between base and quote.
   */
  function Detect(text: string, dash: bool): (r: Option<string>)
    ensures r.Some? ==> r.value in SymMap
  {
    var u := Upper(text);
    var m := FirstMatch(u, 0, dash);
    SymTable();
    if m.Some? && m.value in SymMap then m else FirstMentioned(u, SymKeys)
  }

  /** The detector as the route has it: base and quote separated by white space and at most one slash. */
  function DetectSymbolAsWritten(text: string): (r: Option<string>)
    ensures r.Some? ==> r.value in SymMap
  {
    Detect(text, false)
  }

  /** The corrected detector: a dash may also separate base and quote, as in `ETH-PERP`. */
  function DetectSymbol(text: string): (r: Option<string>)
    ensures r.Some? ==> r.value in SymMap
  {
    Detect(text, true)
  }

  /**
   * Detection sees the text upper-cased, so the letter case of the input does
   * not matter, for the written and the corrected pattern alike.
   */
  lemma DetectCaseInsensitive(text: string, dash: bool)
    ensures Detect(Lower(text), dash) == Detect(text, dash)
    ensures Detect(Upper(text), dash) == Detect(text, dash)
  {
    UpperOfLower(text);
    UpperIdempotent(text);
  }

  /**
   * A known base captured at the leftmost position where the pair pattern
   * matches wins over the word scan.
   */
  lemma PairWins(text: string, dash: bool, j: nat, b: string)
    ensures var u := Upper(text);
      j <= |u| && MatchAt(u, j, dash) == Some(b) && b in SymMap
      && (forall k :: 0 <= k < j ==> MatchAt(u, k, dash).None?)
      ==> Detect(text, dash) == Some(b)
  {
    var u := Upper(text);
    if j <= |u| && MatchAt(u, j, dash) == Some(b) && (forall k :: 0 <= k < j ==> MatchAt(u, k, dash).None?) {
      assert LeftmostMatch(u, 0, j, dash);
      FirstMatchLeftmost(u, 0, j, dash);
    }
  }

  /**
   * Without a known base in the leftmost pair match, the first known symbol in
   * table order that is mentioned space-delimited wins.
   */
  lemma WordScanOrder(text: string, dash: bool, i: nat)
    requires FirstMatch(Upper(text), 0, dash).None? || FirstMatch(Upper(text), 0, dash).value !in SymMap
    requires i < |SymKeys| && Mentioned(Upper(text), SymKeys[i])
    requires forall j :: 0 <= j < i ==> !Mentioned(Upper(text), SymKeys[j])
    ensures Detect(text, dash) == Some(SymKeys[i])
  {
    FirstMentionedAt(Upper(text), SymKeys, i);
  }

  lemma {:induction false} FirstMentionedAt(u: string, keys: seq<string>, i: nat)
    requires i < |keys| && Mentioned(u, keys[i])
    requires forall j :: 0 <= j < i ==> !Mentioned(u, keys[j])
    ensures FirstMentioned(u, keys) == Some(keys[i])
  {
    if i > 0 {
      FirstMentionedAt(u, keys[1..], i - 1);
    }
  }

  /** A message that is only a bare symbol, in any letter case, detects nothing, with either pattern. */
  lemma BareSymbolUndetected(k: string, dash: bool)
    requires k in SymMap
    ensures Detect(k, dash) == None && Detect(Lower(k), dash) == None
  {
    SymTable();
    var u := Upper(k);
    assert u == k;
    assert ' ' !in u;
    NoWordWithoutSpace(u);
    NoMatchInWord(u, dash);
    DetectCaseInsensitive(k, dash);
  }

  /** A single word of three to five letters holds no pair match: no quote fits after its base. */
  lemma NoMatchInWord(u: string, dash: bool)
    requires IsBase(u)
    ensures FirstMatch(u, 0, dash).None?
  {
    forall j | 0 <= j <= |u| ensures MatchAt(u, j, dash).None? {
      NoBaseInWord(u, j, 3, dash);
      NoBaseInWord(u, j, 4, dash);
      NoBaseInWord(u, j, 5, dash);
    }
  }

  lemma NoBaseInWord(u: string, j: nat, n: nat, dash: bool)
    requires IsBase(u) && j <= |u| && 3 <= n <= 5
    ensures !BaseAt(u, j, n, dash)
  {
    if j > 0 {
      assert IsUpperAscii(u[j - 1]);
    } else if n <= |u| {
      if n < |u| {
        assert IsUpperAscii(u[n]);
      }
      assert SkipSpaces(u, n) == n;
      assert |u[n..]| < 3;
    }
  }

  // ----- the spot price -----

  /** `fetchSpotUSD`'s reading of a reply: the `usd` field of the id's row when it is a number, else null. */
  function SpotUsd(f: Fetch, id: string): (spot: Value)
    ensures spot.Null? || spot.Num?
    ensures spot.Num? <==> f.Ok() && Get(Get(f.body, id), "usd").Num?
    ensures spot.Num? ==> spot == Get(Get(f.body, id), "usd")
  {
    if f.Ok() && Get(Get(f.body, id), "usd").Num? then Get(Get(f.body, id), "usd") else Null
  }

  // ----- the system prompt and the user message -----

  /** The system prompts, by kind; the chart analyst's carries its price line. */
  datatype System = ChartSage(priceLine: string) | PulseScout | Qa

  const SpotUnavailable: string :=
    "Current spot:" + " unavailable. Do NOT invent exact price. Use relative wording (e.g., 'near recent support/resistance')."

  /** The chart analyst's price line: the spot when it is truthy, else the warning not to invent one. */
  function PriceLine(symbol: Value, spot: Value, fixed2: Number -> string, numStr: Number -> string): (line: string)
    ensures line == SpotUnavailable <==> !(Truthy(spot) && spot.Num?)
  {
    if Truthy(spot) && spot.Num? then
      var line := "Current spot (" + ToString(symbol, numStr) + "/USD): $" + fixed2(spot.n) + " (CoinGecko, UTC).";
      assert line[..13] == "Current spot " && SpotUnavailable[..13] == "Current spot:";
      line
    else SpotUnavailable
  }

  /** `buildSystem`: the chart prompt for `"chartsage"`, the pulse prompt for `"pulsescout"`, the question-answer prompt otherwise. */
  function BuildSystem(kind: Value, symbol: Value, spot: Value, fixed2: Number -> string, numStr: Number -> string): (s: System)
    ensures s.ChartSage? <==> kind == Str("chartsage")
    ensures s.PulseScout? <==> kind == Str("pulsescout")
    ensures s.ChartSage? ==> (s.priceLine == SpotUnavailable <==> !(Truthy(spot) && spot.Num?))
  {
    if kind == Str("chartsage") then ChartSage(PriceLine(symbol, spot, fixed2, numStr))
    else if kind == Str("pulsescout") then PulseScout
    else Qa
  }

  /** The three lines of the user message. */
  function UserLines(symbol: Value, wallet: Value, provider: Value, message: Value, numStr: Number -> string): (lines: seq<string>)
    ensures |lines| == 3
    ensures lines[0] == "Symbol: (not detected)" <==> !Truthy(symbol)
    ensures Truthy(symbol) ==> lines[0] == "Symbol: " + ToString(symbol, numStr) + "/USD"
    ensures lines[1] == "Wallet: -" <==> !Truthy(wallet)
    ensures Truthy(wallet) && Truthy(provider) ==>
      lines[1] == "Wallet: " + ToString(wallet, numStr) + " via " + ToString(provider, numStr)
    ensures Truthy(wallet) && !Truthy(provider) ==> lines[1] == "Wallet: " + ToString(wallet, numStr) + " via -"
    ensures lines[2] == "Query: " + ToString(message, numStr)
  {
    var named := "Symbol: " + ToString(symbol, numStr) + "/USD";
    assert named[|named| - 1] == 'D' && "Symbol: (not detected)"[21] == ')';
    [ if Truthy(symbol) then named else "Symbol: (not detected)",
      if Truthy(wallet)
        then "Wallet: " + ToString(wallet, numStr) + " via " + ToString(if Truthy(provider) then provider else Str("-"), numStr)
        else "Wallet: -",
      "Query: " + ToString(message, numStr) ]
  }

  /** What the route hands to the language model, or why it answers without one. */
  datatype Prepared =
    | MissingMessage
    | Crashed
    | Ask(system: System, user: string, kind: Value, symbol: Value, spot: Value, lookups: seq<string>)

  /** The detector's answer as the route holds it: the symbol, or `null`. */
  function SymbolValue(d: Option<string>): (v: Value)
    ensures v.Null? <==> d.None?
    ensures d.Some? ==> v == Str(d.value)
  {
    if d.Some? then Str(d.value) else Null
  }

  /**
   * The `/chat` handler up to the model call: 400 without a truthy message;
   * for the chart analyst only, the symbol is detected with the pattern as
   * written (a message that is not a string makes `toUpperCase` throw, which
   * the handler reports as a failure) and, when one is found, its spot is
   * looked up; then the system prompt and the user message are built.
   * `lookups` lists the CoinGecko ids requested.
   */
  function PrepareChat(body: Value, fetch: string -> Fetch, fixed2: Number -> string, numStr: Number -> string): (r: Prepared)
    ensures var b := if Truthy(body) then body else Obj(map[]);
      r == MissingMessage <==> !Truthy(Get(b, "message"))
    ensures var b := if Truthy(body) then body else Obj(map[]);
      r == Crashed <==> Truthy(Get(b, "message")) && Get(b, "module") == Str("chartsage") && !Get(b, "message").Str?
    ensures var b := if Truthy(body) then body else Obj(map[]);
      r.Ask? ==>
        && r.kind == Get(b, "module")
        && (r.kind == Str("chartsage") ==> Get(b, "message").Str? && r.symbol == SymbolValue(DetectSymbolAsWritten(Get(b, "message").s)))
        && (r.kind != Str("chartsage") ==> r.symbol.Null?)
        && r.user == Join(UserLines(r.symbol, Get(b, "wallet"), Get(b, "provider"), Get(b, "message"), numStr), "\n")
    ensures r.Ask? && r.symbol.Str? ==>
      && r.symbol.s in SymMap
      && r.lookups == [SymMap[r.symbol.s]]
      && r.spot == SpotUsd(fetch(SymMap[r.symbol.s]), SymMap[r.symbol.s])
    ensures r.Ask? && !r.symbol.Str? ==> r.symbol.Null? && r.lookups == [] && r.spot.Null?
    ensures r.Ask? ==> r.system == BuildSystem(r.kind, r.symbol, r.spot, fixed2, numStr)
  {
    var b := if Truthy(body) then body else Obj(map[]);
    var message := Get(b, "message");
    var kind := Get(b, "module");
    if !Truthy(message) then MissingMessage
    else if kind == Str("chartsage") && !message.Str? then Crashed
    else
      var detected := if kind == Str("chartsage") then DetectSymbolAsWritten(message.s) else None;
      var symbol := SymbolValue(detected);
      var lookups := if detected.Some? then [SymMap[detected.value]] else [];
      var spot := if detected.Some? then SpotUsd(fetch(SymMap[detected.value]), SymMap[detected.value]) else Null;
      var system := BuildSystem(kind, symbol, spot, fixed2, numStr);
      var user := Join(UserLines(symbol, Get(b, "wallet"), Get(b, "provider"), message, numStr), "\n");
      Ask(system, user, kind, symbol, spot, lookups)
  }

  /**
   * As written, the chart analyst asked about `ETH-PERP` detects no symbol:
   * no spot is requested, the price line is the warning and the user message
   * says the symbol was not detected.
   */
  lemma ChartDashPairUndetected(fields: map<string, Value>, fetch: string -> Fetch, fixed2: Number -> string, numStr: Number -> string)
    requires "message" in fields && fields["message"] == Str("ETH-PERP")
    requires "module" in fields && fields["module"] == Str("chartsage")
    ensures var r := PrepareChat(Obj(fields), fetch, fixed2, numStr);
      && r.Ask? && r.symbol == Null && r.lookups == []
      && r.system == ChartSage(SpotUnavailable)
      && StartsWith(r.user, "Symbol: (not detected)\n")
  {
    DashPairMissed();
    ChartUndetected(Obj(fields), fetch, fixed2, numStr);
  }

  /** A chart question in which the detector finds nothing is asked without a symbol or a spot. */
  lemma ChartUndetected(b: Value, fetch: string -> Fetch, fixed2: Number -> string, numStr: Number -> string)
    requires b.Obj? && Get(b, "module") == Str("chartsage")
    requires Get(b, "message").Str? && Get(b, "message").s != "" && DetectSymbolAsWritten(Get(b, "message").s) == None
    ensures var r := PrepareChat(b, fetch, fixed2, numStr);
      && r.Ask? && r.symbol == Null && r.lookups == []
      && r.system == ChartSage(SpotUnavailable)
      && StartsWith(r.user, "Symbol: (not detected)\n")
  {
    var r := PrepareChat(b, fetch, fixed2, numStr);
    assert r.Ask?;
    var lines := UserLines(Null, Get(b, "wallet"), Get(b, "provider"), Get(b, "message"), numStr);
    assert r.user == Join(lines, "\n");
    assert Join(lines, "\n") == lines[0] + "\n" + Join(lines[1..], "\n");
  }

  /** The user message reads back as its three lines when the values it quotes are single lines. */
  lemma UserMessageLines(symbol: Value, wallet: Value, provider: Value, message: Value, numStr: Number -> string)
    requires '\n' !in ToString(symbol, numStr) && '\n' !in ToString(wallet, numStr)
    requires '\n' !in ToString(provider, numStr) && '\n' !in ToString(message, numStr)
    ensures Split(Join(UserLines(symbol, wallet, provider, message, numStr), "\n"), '\n')
      == UserLines(symbol, wallet, provider, message, numStr)
  {
    var lines := UserLines(symbol, wallet, provider, message, numStr);
    UserLinesAreSingle(symbol, wallet, provider, message, numStr);
    SplitJoin(lines, '\n');
  }

  lemma UserLinesAreSingle(symbol: Value, wallet: Value, provider: Value, message: Value, numStr: Number -> string)
    requires '\n' !in ToString(symbol, numStr) && '\n' !in ToString(wallet, numStr)
    requires '\n' !in ToString(provider, numStr) && '\n' !in ToString(message, numStr)
    ensures forall p :: p in UserLines(symbol, wallet, provider, message, numStr) ==> '\n' !in p
  {
    var lines := UserLines(symbol, wallet, provider, message, numStr);
    var sym := ToString(symbol, numStr);
    var w := ToString(wallet, numStr);
    var p := ToString(if Truthy(provider) then provider else Str("-"), numStr);
    assert '\n' !in p;
    AbsentFromConcat('\n', "Symbol: ", sym);
    AbsentFromConcat('\n', "Symbol: " + sym, "/USD");
    AbsentFromConcat('\n', "Wallet: ", w);
    AbsentFromConcat('\n', "Wallet: " + w, " via ");
    AbsentFromConcat('\n', "Wallet: " + w + " via ", p);
    AbsentFromConcat('\n', "Query: ", ToString(message, numStr));
    assert '\n' !in "Symbol: (not detected)" && '\n' !in "Wallet: -";
    assert '\n' !in lines[0] && '\n' !in lines[1] && '\n' !in lines[2];
  }

  // ----- the dash separator -----

  /** A message made of upper-case letters, a separator and a quote is its own upper-casing. */
  lemma UpperOfPair(k: string, sep: char, quote: string)
    requires IsBase(k) && quote in ["USDT", "USD", "PERP"] && (sep == '/' || sep == '-')
    ensures Upper(k + [sep] + quote) == k + [sep] + quote
  {
    var u := k + [sep] + quote;
    assert forall i :: 0 <= i < |u| ==> !IsLowerAscii(u[i]);
  }

  /** When a base of known shape is followed by a separator and a quote, the pattern captures that base at the start. */
  lemma MatchOfPair(u: string, n: nat, dash: bool)
    requires n + 1 < |u| && IsBase(u[..n]) && IsSep(u[n], dash) && !IsSpace(u[n + 1]) && QuoteAt(u, n + 1)
    ensures FirstMatch(u, 0, dash) == Some(u[..n])
  {
    PairBaseAt(u, n, dash);
    if n < 5 {
      NoLongerBase(u, n, 5, dash);
    }
    if n < 4 {
      NoLongerBase(u, n, 4, dash);
    }
    assert u[0..n] == u[..n];
    assert MatchAt(u, 0, dash) == Some(u[..n]);
  }

  /** The base, the separator and the quote make a match at the start. */
  lemma PairBaseAt(u: string, n: nat, dash: bool)
    requires n + 1 < |u| && IsBase(u[..n]) && IsSep(u[n], dash) && !IsSpace(u[n + 1]) && QuoteAt(u, n + 1)
    ensures BaseAt(u, 0, n, dash)
  {
    forall k | 0 <= k < n ensures IsUpperAscii(u[k]) {
      assert u[k] == u[..n][k];
    }
    assert !IsSpace(u[n]);
    assert SkipSpaces(u, n) == n;
    assert SkipSpaces(u, n + 1) == n + 1;
    assert QuoteFollows(u, n, dash);
  }

  /** No match at the start spans more letters than the run of capitals there. */
  lemma NoLongerBase(u: string, n: nat, m: nat, dash: bool)
    requires n < m && n < |u| && !IsUpperAscii(u[n])
    ensures !BaseAt(u, 0, m, dash)
  {
  }

  /** A known base, a separator the pattern accepts and a quote, as a whole message, detects that base. */
  lemma SeparatedPair(k: string, sep: char, quote: string, dash: bool)
    requires k in SymMap && quote in ["USDT", "USD", "PERP"]
    requires (sep == '/' || sep == '-') && IsSep(sep, dash)
    ensures Detect(k + [sep] + quote, dash) == Some(k)
  {
    SymTable();
    var u := k + [sep] + quote;
    UpperOfPair(k, sep, quote);
    var n := |k|;
    assert u[..n] == k;
    assert u[n + 1..] == quote;
    assert QuoteAt(u, n + 1) && !IsSpace(u[n + 1]);
    MatchOfPair(u, n, dash);
  }

  /** The written pattern finds no pair in `ETH-PERP`. */
  lemma DashPairNoWrittenMatch()
    ensures FirstMatch("ETH-PERP", 0, false).None?
  {
    var u := "ETH-PERP";
    assert SkipSpaces(u, 3) == 3;
    assert !QuoteAt(u, 3);
    assert SkipSpaces(u, 7) == 7 && !QuoteAt(u, 7);
    assert SkipSpaces(u, 8) == 8 && !QuoteAt(u, 8);
    forall j, n | 0 <= j <= |u| && 3 <= n <= 5 ensures !BaseAt(u, j, n, false) {
      if j == 0 {
        assert n > 3 ==> !IsUpperAscii(u[3]);
      } else if j == 4 {
        assert n == 3 || n == 4 || 4 + n > |u|;
      }
    }
  }

  /** The written pattern misses `ETH-PERP`, which the route's own comment names as a form to detect. */
  lemma DashPairMissed()
    ensures DetectSymbolAsWritten("ETH-PERP") == None
    ensures DetectSymbol("ETH-PERP") == Some("ETH")
  {
    var u := "ETH-PERP";
    assert "ETH" + ['-'] + "PERP" == u;
    UpperOfPair("ETH", '-', "PERP");
    NoWordWithoutSpace(u);
    DashPairNoWrittenMatch();
    SeparatedPair("ETH", '-', "PERP", true);
  }

  /** The word scan finds nothing in a text without a space. */
  lemma NoWordWithoutSpace(u: string)
    requires ' ' !in u
    ensures FirstMentioned(u, SymKeys).None?
  {
    forall s | s in SymKeys ensures !Mentioned(u, s) {
      NoSpaceNoMention(u, s);
    }
  }
}
