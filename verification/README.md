# KIRAAAAAA backend core, modelled in Dafny

This project models the request-handling core of the KIRAAAAAA Express backend:

- **Pulse hub and routes.** The in-memory hub streams trading alerts to subscribers as server-sent events. The pulse routes register subscribers and keep their heartbeat. They also gate webhooks and emits behind a shared secret, and normalise loosely shaped feed payloads into a canonical seven-field alert.
- **Rate limit.** A per-client sliding-window limiter.
- **CORS.** The cross-origin allow-list.
- **Spot prices.** A cached spot-price lookup that tries Binance first and falls back to CoinGecko, plus a detector that picks a symbol out of free text.
- **Market snapshot.** A cached 24-hour snapshot and the text block it becomes inside a prompt.
- **Chat.** The chat route up to the language-model call: symbol detection, the spot lookup for the chart analyst, the choice of system prompt and the user message.
- **Price routes.** A single-symbol quote and a comma-list quote.
- **Quiz.** The route that sanitises a generated multiple-choice question before it is sent.

There is one Dafny module per source file:

| module | file | source |
|---|---|---|
| `Hub` | `hub.dfy` | `src/pulse/hub.js` |
| `PulseRoutes` | `pulse_routes.dfy` | `src/routes/pulse.js` |
| `RateLimit` | `rate_limit.dfy` | `src/middleware/rateLimit.js` |
| `Cors` | `cors.dfy` | `src/middleware/cors.js` |
| `SpotPrice` | `spot_price.dfy` | `src/lib/price.js` |
| `Market` | `market.dfy` | `src/routes/market.js` |
| `Chat` | `chat.dfy` | `src/routes/chat.js` |
| `PriceRoutes` | `price_routes.dfy` | `src/routes/price.js` |
| `Quiz` | `quiz.dfy` | `src/routes/quiz.js` |

Three support modules sit underneath:

- `Js` models JavaScript values: `undefined`, `null`, booleans, IEEE numbers (finite, the infinities and NaN), strings, arrays and objects. It also models truthiness, `a || b || …` chains, property reads, `Number(..)` and `String(..)`.
- `Text` models the string methods the core uses: ASCII case mapping, `trim`, one-character `split` and `join`, `includes`, `startsWith`/`endsWith`.
- `Wrappers` holds `Option` and `Result`.

State that the source mutates in place is modelled as classes whose methods carry `modifies` clauses:

- the subscriber set: `Hub.Hub`;
- each subscriber stream: `Hub.Channel`;
- the rate-limit table: `RateLimit.HitTable`;
- the two caches: `SpotPrice.SpotCache` and `Market.MarketCache`.

The loops of the comma-list quote are methods with loop invariants.

Everything the code gets from outside is a parameter:

- the network: `fetch`, as a function from the request to its outcome;
- the clock: `now`;
- `Number(string)`: `strNum`;
- `String(number)`: `numStr`;
- `toFixed(2)`: `fixed2`;
- `Math.tanh`: `tanh`;
- `JSON.stringify`: `encode`;
- ISO time stamps: `iso` and `ts`;
- the uuid generator: `uuid`;
- the difficulty suggestion: `suggest`;
- the environment variables.

## Model

| member | source | states |
|---|---|---|
| Hub.MessageFrame | src/pulse/hub.js:9-12 | `send` makes two writes, and together they are the event `message` carrying the JSON text |
| Hub.DecodeEvent_Event | src/pulse/hub.js:10-11 | an event with single-line name and data reads back as exactly that name and data |
| Hub.Event_DecodeEvent | src/pulse/hub.js:10-11 | anything that reads back as an event is exactly that event's text, so the frame format is unambiguous |
| Hub.MessageFrameReadsBack | src/pulse/hub.js:9-12 | a subscriber reading the two chunks of `send` gets the `message` event with the JSON text unchanged |
| Hub.Write | src/pulse/hub.js:10-11 | a write appends the chunk to a working stream; on a broken stream it fails and appends nothing |
| Hub.Send | src/pulse/hub.js:9-12 | a working stream receives the whole frame, a broken one nothing; nothing else about the stream changes |
| Hub.Hub.AddClient | src/pulse/hub.js:4-7 | the stream joins the subscriber set |
| Hub.Hub.OnClose | src/pulse/hub.js:6 | closing a stream removes it from the set and leaves every other subscriber |
| Hub.Hub.Broadcast | src/pulse/hub.js:14-18 | every registered working stream gets the frame and broken ones get nothing; the set is unchanged and no failure reaches the caller |
| Hub.Clamp | src/pulse/hub.js:34 | the result lies in [0, 0.99], and a value already inside is unchanged |
| Hub.Validity | src/pulse/hub.js:29-36 | a numeric `validity` is taken as given (not clamped); otherwise a non-NaN score gives a value in [0, 0.99]; otherwise 0.86 |
| Hub.ToAlert | src/pulse/hub.js:21-45 | source, symbol and signal are always truthy and drawn from their key lists or defaults; notes likewise; the side is lower-case and as long as the raw side; the time stamp is the clock's |
| Hub.ToAlertResolves | src/pulse/hub.js:25-27 | each text field is the first truthy field of its key list in order, else its default (`unknown`, `-`, `anomaly`, empty notes) |
| Hub.SideResolves | src/pulse/hub.js:28 | the raw side is the first truthy of `side`/`bias`, else `neutral` |
| Hub.ToAlertSide | src/pulse/hub.js:28 | the alert's side is the lower-cased first truthy of `side`/`bias`, else `neutral` |
| Hub.DerivedValidityUnclamped | src/pulse/hub.js:32-34 | when tanh stays in [-1, 1] the clamp never bites: a derived validity is `0.5 + tanh(z/4)*0.4`, within [0.1, 0.9] |
| Hub.SquashMonotonic | src/pulse/hub.js:34 | a higher score never gives a lower derived validity |
| Hub.VolumeZFourValidity | src/pulse/hub.js:33-34 | `{volume_z: 4}` without a validity gets `0.5 + tanh(1)*0.4` |
| Hub.NoScoreDefaultValidity | src/pulse/hub.js:36 | a payload with neither a validity nor a score field gets exactly 0.86 |
| Js.OrChain | src/pulse/hub.js:25-28 | an `\|\|` chain yields one of its operands, and the last one when the result is falsy |
| Js.OrChainFirstTruthy | src/pulse/hub.js:25 | the first truthy operand wins |
| Js.OrChainAllFalsy | src/pulse/hub.js:25 | with no truthy operand before the last, the last is the result |
| Js.Fields | src/pulse/hub.js:25 | the i-th read is the field under the i-th key, `undefined` when missing |
| Js.Pick | src/pulse/hub.js:25-27 | the result is one of the fields or the default, and is truthy unless it is the default |
| Js.PickResolves | src/pulse/hub.js:25-27 | the first truthy key wins, and the default is taken only when no key is truthy |
| PulseRoutes.PingEventReadsBack | src/routes/pulse.js:25 | the heartbeat chunk is the `ping` event with `{}` as data |
| PulseRoutes.CheckSecretDisabled | src/routes/pulse.js:6-9 | with `PULSE_SECRET` unset or empty, no request passes |
| PulseRoutes.CheckSecretExact | src/routes/pulse.js:6-9 | with a non-empty secret, a request passes exactly when the path parameter, query parameter or body field equals it |
| PulseRoutes.Items | src/routes/pulse.js:35 | an array body is its elements; any other body is a one-item batch |
| PulseRoutes.AlertJsons | src/routes/pulse.js:37-40 | one alert per item, in item order |
| PulseRoutes.Frames | src/routes/pulse.js:37-40 | a run of broadcasts gives two chunks per alert |
| PulseRoutes.FramesInOrder | src/routes/pulse.js:37-40 | the i-th event a subscriber receives carries the i-th item's alert |
| PulseRoutes.Stream | src/routes/pulse.js:12-27 | the stream is registered before the greeting; a working stream gets the greeting frame and starts its heartbeat; a broken one stays registered with no heartbeat |
| PulseRoutes.HeartbeatTick | src/routes/pulse.js:25 | a tick appends the ping to a working stream and swallows the failure on a broken one |
| PulseRoutes.Disconnect | src/routes/pulse.js:26 | closing unregisters the stream and stops its heartbeat, and writes nothing |
| PulseRoutes.BroadcastAll | src/routes/pulse.js:37-40 | each working subscriber receives every frame in order, broken ones nothing; the set is unchanged |
| PulseRoutes.Webhook | src/routes/pulse.js:30-42 | a shut gate gives 401 and broadcasts nothing; otherwise every item's alert is broadcast in order and the reply counts the items |
| PulseRoutes.Emit | src/routes/pulse.js:45-50 | a shut gate gives 401 and broadcasts nothing; otherwise exactly one alert, made from `payload` or `{}`, is broadcast |
| RateLimit.ClientKey | src/middleware/rateLimit.js:6 | the key is the trimmed first `X-Forwarded-For` entry when non-empty, else the request address, else `unknown`; never empty |
| RateLimit.ClientKeyFirstHop | src/middleware/rateLimit.js:6 | proxies appended after the first entry do not change the key |
| RateLimit.Recent | src/middleware/rateLimit.js:9 | exactly the timestamps inside the window are kept; RecentAppend gives the order and repeats |
| RateLimit.RecentAppend | src/middleware/rateLimit.js:9 | the filter of a concatenation is the concatenation of the filters, so order and repeats are kept |
| RateLimit.RecentAllStale | src/middleware/rateLimit.js:9 | a bucket wholly outside the window is emptied |
| RateLimit.RecentDropsStale | src/middleware/rateLimit.js:9-12 | stale timestamps followed by young ones keep exactly the young ones, so the count checked against `max` is their number plus one |
| RateLimit.RecentLater | src/middleware/rateLimit.js:9 | filtering at an earlier time and then at a later one equals filtering once at the later time; expired timestamps never return |
| RateLimit.RecentAllFresh | src/middleware/rateLimit.js:9 | a bucket whose timestamps are all inside the window survives whole |
| RateLimit.BurstFillsBucket | src/middleware/rateLimit.js:8-12 | requests that all fall within one window, with the timestamps already in the bucket, are all recorded: the bucket becomes the old timestamps followed by every request's |
| RateLimit.ReplaySnoc | src/middleware/rateLimit.js:8-11 | one more request after a run updates the bucket by one more filter-and-push step |
| RateLimit.BurstRefusal | src/middleware/rateLimit.js:8-14 | in such a burst, request k (from zero) leaves `\|prefix\| + k + 1` timestamps and is refused exactly when that exceeds `max`; from an empty bucket the first `max` pass and every later one gets 429 |
| RateLimit.HitTable.Admit | src/middleware/rateLimit.js:7-15 | the client's bucket becomes its recent timestamps plus `now`, refused requests included; no other client's bucket changes; the request passes exactly when the new bucket holds at most `max` |
| Cors.AllowList | src/middleware/cors.js:4-7 | every listed origin is non-empty, comma-free and trimmed |
| Cors.Decide | src/middleware/cors.js:9-18 | an origin is allowed exactly when the list is empty, the origin is missing or empty, or it is listed verbatim; a refusal names the origin |
| Cors.UnsetIsPermissive | src/middleware/cors.js:9-12 | without `CORS_ORIGINS` every origin is allowed |
| Cors.ConfiguredList | src/middleware/cors.js:4-18 | a comma-joined list of clean origins is read back as that list; exactly its origins pass and any other is refused by name |
| Text.Upper | src/routes/chat.js:31 | same length; no lower-case letter remains; other characters are unchanged |
| Text.Lower | src/pulse/hub.js:28 | same length; no upper-case letter remains; other characters are unchanged |
| Text.Trim | src/middleware/rateLimit.js:6 | the result is no longer than the input and neither starts nor ends with white space |
| Text.TrimIsSlice | src/middleware/rateLimit.js:6 | the trimmed string is a contiguous slice of the input |
| Text.TrimKeepsAbsence | src/middleware/cors.js:6 | trimming adds no character |
| Text.Split | src/middleware/cors.js:5 | a split gives at least one piece, and no piece contains the separator |
| Text.JoinSplit | src/middleware/cors.js:5 | joining the pieces of a split with the separator restores the string |
| Text.SplitJoin | src/middleware/cors.js:5 | splitting a join of separator-free pieces restores the pieces |
| Text.NonEmpty | src/middleware/cors.js:7 | `filter(Boolean)` keeps exactly the non-empty entries; NonEmptyAppend gives the order and repeats |
| Text.NonEmptyAppend | src/middleware/cors.js:7 | the filter of a concatenation is the concatenation of the filters, so order and repeats are kept |
| Text.CleanSplit | src/middleware/cors.js:4-7 | the entries of the split-trim-filter idiom are non-empty, separator-free and trimmed |
| Text.CleanSplitJoin | src/middleware/cors.js:4-7 | a joined list of clean entries survives the idiom unchanged |
| Text.UpperIdempotent | src/routes/chat.js:31 | upper-casing twice is upper-casing once |
| Text.UpperOfLower | src/routes/chat.js:31 | lower-casing first does not change what upper-casing gives |
| Text.ContainsAt | src/lib/price.js:66 | `includes` finds every occurrence |
| SpotPrice.AssetTable | src/lib/price.js:7-15 | the declared order lists exactly the supported symbols, and each Binance pair is the symbol plus `USDT` |
| SpotPrice.Letters | src/lib/price.js:18 | keeps exactly the letters A–Z; LettersAppend gives the order |
| SpotPrice.LettersAppend | src/lib/price.js:18 | the letters of a concatenation are the letters of each part, in order |
| SpotPrice.NormSym | src/lib/price.js:17-19 | the result consists of letters A–Z and holds exactly the A–Z letters of the upper-cased input |
| SpotPrice.NormSymOfSymbol | src/lib/price.js:17-19 | a run of letters A–Z is its own normal form |
| SpotPrice.NormSymIdempotent | src/lib/price.js:17-19 | normalising twice is normalising once |
| SpotPrice.Symbol | src/lib/price.js:22 | a missing or empty argument reads as `SOL`; the symbol is all letters A–Z |
| SpotPrice.FinitePrice | src/lib/price.js:33-36 | a price exists exactly when the reply is 2xx and the field converts to a finite number, and it is that number |
| SpotPrice.FetchSpot | src/lib/price.js:30-58 | Binance alone when it yields a finite price; else CoinGecko is asked too and its finite price is taken; else `price_fetch_failed:<sym>`; a spot carries the symbol and the clock |
| SpotPrice.SpotCache.GetSpot | src/lib/price.js:21-59 | a young cache entry is returned without a request; an unsupported symbol fails without a request; otherwise the providers decide and a spot is cached under its symbol; every returned spot is young and its symbol's |
| SpotPrice.GetSpotTwice | src/lib/price.js:24-25 | a second lookup within the cache period returns the same spot and makes no request |
| SpotPrice.FirstContained | src/lib/price.js:64-67 | the result is a key the text contains, and it is absent exactly when the text contains no key |
| SpotPrice.FirstContainedAt | src/lib/price.js:64-67 | the first contained key in table order wins |
| SpotPrice.LetterRun | src/lib/price.js:69 | the run from `i` holds only letters A–Z and ends at the end or at a non-letter |
| SpotPrice.RunOfPair | src/lib/price.js:69 | a pair match at `i` spans exactly the run of letters there |
| SpotPrice.PairBaseAt | src/lib/price.js:69 | the group found at `i` matches `\b([A-Z]{2,6})\/USDT\b`, and any match there has that group |
| SpotPrice.FindPair | src/lib/price.js:69-70 | the result is the group of the leftmost match; absent exactly when no position matches |
| SpotPrice.PairUnique | src/lib/price.js:69 | at most one group matches at a position |
| SpotPrice.FindPairLeftmost | src/lib/price.js:69-70 | the leftmost matching position decides the group |
| SpotPrice.DetectSymbolFromText | src/lib/price.js:61-72 | the result is always a symbol of at least two letters A–Z |
| SpotPrice.DetectKeyFirst | src/lib/price.js:63-67 | the first supported symbol the upper-cased text contains, in table order, is the answer |
| SpotPrice.DetectPairNext | src/lib/price.js:68-70 | without a supported symbol in the text, the base of the leftmost `XX/USDT` pair is the answer |
| SpotPrice.DetectDefault | src/lib/price.js:71 | with neither a symbol nor a pair, the answer is `SOL` |
| Market.NumOr | src/routes/market.js:16-19 | a finite conversion is returned; anything else gives the default |
| Market.NumOrDefaults | src/routes/market.js:16-19 | missing, NaN and infinite readings give 0, and finite ones are kept |
| Market.BinanceTicker | src/routes/market.js:22-40 | succeeds exactly on a 2xx reply with a non-null body; the source is `binance`, the volume is present, and the symbol is the reply's, or the requested one when the reply has none |
| Market.CoingeckoId | src/routes/market.js:43-45 | the three known symbols map to their ids; every other symbol is looked up as `solana` |
| Market.CoingeckoSimple | src/routes/market.js:44-62 | succeeds exactly on a 2xx reply with a non-null body; the source is `coingecko`, the symbol is the requested one, and there is no volume |
| Market.KeyInjective | src/routes/market.js:66 | different symbols never share a cache key |
| Market.MarketCache.Lookup | src/routes/market.js:7-11 | an entry is returned exactly when it is younger than the TTL |
| Market.MarketCache.Store | src/routes/market.js:12-14 | the key's entry is replaced with the data stamped now; no other key changes |
| Market.MarketCache.GetSnapshot | src/routes/market.js:65-79 | a cached snapshot comes back without a request; else the Binance ticker, cached on success; else the CoinGecko fallback, cached on success, with its failure passed on; requests are listed in order |
| Market.PromptLines | src/routes/market.js:84-95 | ten lines, framed by the header and braces |
| Market.LinesAreSingle | src/routes/market.js:84-95 | when the fields print on one line, so does every line of the block |
| Market.TextLinesAreSingle | src/routes/market.js:87-89 | the symbol, source and time-stamp lines are single lines |
| Market.NumberLinesAreSingle | src/routes/market.js:90-93 | the four number lines are single lines |
| Market.FormatForPrompt | src/routes/market.js:82-96 | no snapshot gives exactly `market_snapshot: unavailable`; a snapshot gives a block that opens with the `market_snapshot:` line and the `{` line |
| Market.FormatReadsBack | src/routes/market.js:82-96 | splitting the block on newlines gives back its ten lines |
| Market.FormatDistinguishable | src/routes/market.js:83-84 | a snapshot block never equals the unavailable line |
| Chat.SymTable | src/routes/chat.js:6-15 | the declared order lists exactly the known symbols, each of three to five letters |
| Chat.SkipSpaces | src/routes/chat.js:33 | `\s*` takes the whole run of white space |
| Chat.MatchAt | src/routes/chat.js:33 | a group found at `i` is a 3–5-letter base followed by an optional separator and a quote; none is found exactly when no length matches |
| Chat.BaseAtIsBase | src/routes/chat.js:33 | the letters a match spans form a base |
| Chat.FirstMatch | src/routes/chat.js:33 | a found group is a base and is the group captured at the leftmost matching position; there is none exactly when no position matches |
| Chat.FirstMatchLeftmost | src/routes/chat.js:33 | the leftmost position where the pattern matches decides the group |
| Chat.FirstMentioned | src/routes/chat.js:36-38 | the result is a key mentioned space-delimited, and it is absent exactly when none is |
| Chat.NoSpaceNoMention | src/routes/chat.js:37 | a text without a space mentions no symbol |
| Chat.Detect | src/routes/chat.js:30-40 | a detected symbol is always a known one |
| Chat.DetectSymbolAsWritten | src/routes/chat.js:30-40 | as written, a detected symbol is a known one |
| Chat.DetectSymbol | src/routes/chat.js:30-40 | with the corrected pattern, a detected symbol is a known one |
| Chat.DetectCaseInsensitive | src/routes/chat.js:31 | letter case of the input does not change the detection, with the written and the corrected pattern |
| Chat.PairWins | src/routes/chat.js:33-34 | when the leftmost position where the pair pattern matches captures a known base, that base is the answer, whatever the word scan would find |
| Chat.WordScanOrder | src/routes/chat.js:36-38 | otherwise, the first known symbol in table order that is mentioned space-delimited wins |
| Chat.FirstMentionedAt | src/routes/chat.js:36-38 | the first mentioned key in table order wins |
| Chat.BareSymbolUndetected | src/routes/chat.js:30-40 | a message that is only a bare known symbol, in any case, detects nothing, with the written and the corrected pattern |
| Chat.NoMatchInWord | src/routes/chat.js:33 | one 3–5-letter word holds no pair match |
| Chat.NoBaseInWord | src/routes/chat.js:33 | no position and length in such a word matches |
| Chat.SpotUsd | src/routes/chat.js:17-27 | the spot is a number exactly when the reply is 2xx and the id's `usd` field is a number, and then it is that field; otherwise null |
| Chat.PriceLine | src/routes/chat.js:54-56 | the warning line is used exactly when the spot is not a truthy number |
| Chat.BuildSystem | src/routes/chat.js:85-89 | the chart prompt exactly for `chartsage`, the pulse prompt exactly for `pulsescout`, the question-answer prompt otherwise; the chart prompt's price line warns exactly when the spot is missing |
| Chat.UserLines | src/routes/chat.js:119-123 | three lines: `Symbol: (not detected)` exactly when there is no symbol, else `Symbol: <symbol>/USD`; `Wallet: -` exactly when there is no wallet, else `Wallet: <wallet> via <provider or ->`; `Query: <message>` |
| Chat.SymbolValue | src/routes/chat.js:110 | no detection gives `null`, a detection its symbol |
| Chat.PrepareChat | src/routes/chat.js:100-123 | 400 exactly when the message is not truthy; a failure exactly when the chart analyst gets a non-string message; otherwise only the chart analyst has a symbol, which is the written detector's answer; a symbol is looked up by its id and the spot is that reply's `usd` number; the system prompt is built from the module, symbol and spot; the user message is the three lines joined |
| Chat.ChartUndetected | src/routes/chat.js:109-123 | a chart question the detector finds nothing in is asked with no symbol, no lookup, the warning price line and `Symbol: (not detected)` |
| Chat.ChartDashPairUndetected | src/routes/chat.js:32-34 | as written, the chart analyst asked about `ETH-PERP` gets no symbol, no spot and the warning price line |
| Chat.UserMessageLines | src/routes/chat.js:119-123 | the user message reads back as its three lines when the quoted values are single lines |
| Chat.UserLinesAreSingle | src/routes/chat.js:119-123 | each line is a single line when the quoted values are |
| Chat.UpperOfPair | src/routes/chat.js:31 | an upper-case base, a separator and a quote are left alone by upper-casing |
| Chat.MatchOfPair | src/routes/chat.js:33 | a base followed directly by a separator and a quote is captured at the start |
| Chat.PairBaseAt | src/routes/chat.js:33 | such a text matches at the start with that base |
| Chat.NoLongerBase | src/routes/chat.js:33 | no match at the start spans more letters than the run of capitals |
| Chat.SeparatedPair | src/routes/chat.js:32-34 | a known base, an accepted separator and a quote, as a whole message, detect that base |
| Chat.DashPairNoWrittenMatch | src/routes/chat.js:33 | the written pattern finds no pair in `ETH-PERP` |
| Chat.DashPairMissed | src/routes/chat.js:32-34 | `ETH-PERP` is missed as written and detected as `ETH` by the corrected pattern |
| Chat.NoWordWithoutSpace | src/routes/chat.js:36-38 | the word scan finds nothing in a text without a space |
| PriceRoutes.IdsInjective | src/routes/price.js:7-15 | no two symbols share an id, so an id names its symbol back |
| PriceRoutes.FetchSimple | src/routes/price.js:19-28 | succeeds exactly on a 2xx reply and gives its body; other statuses give `coingecko <status>` |
| PriceRoutes.QuoteHandler | src/routes/price.js:34-48 | 400 without a request exactly when the upper-cased symbol is not in the table; otherwise one request for its id; 500 `price_failed` with the fetch's error exactly when the request fails; 502 exactly when the price is null or undefined; otherwise the quote of the symbol at that price |
| PriceRoutes.UpperTrimAll | src/routes/price.js:60 | each entry is trimmed and upper-cased, position by position |
| PriceRoutes.UpperTrimNoComma | src/routes/price.js:60 | trimming and upper-casing add no comma |
| PriceRoutes.UpperTrimAllNoComma | src/routes/price.js:59-60 | no entry of the cleaned list holds a comma |
| PriceRoutes.QueryText | src/routes/price.js:58 | a string query is read as itself |
| PriceRoutes.ParseSymbols | src/routes/price.js:57-61 | every parsed symbol is non-empty and comma-free |
| PriceRoutes.UpperTrimAllFixed | src/routes/price.js:60 | clean entries are left unchanged |
| PriceRoutes.ParseSymbolsJoin | src/routes/price.js:57-61 | `?symbols=A,B,C` of clean symbols parses back to exactly that list |
| PriceRoutes.SupportedIds | src/routes/price.js:65-73 | the ids are exactly those of the supported symbols of the list, at most one per entry |
| PriceRoutes.SupportedIdsAppend | src/routes/price.js:65-73 | the ids of a concatenated list are the ids of each part, in list order, one per supported entry |
| PriceRoutes.RepeatedSymbolRepeatsId | src/routes/price.js:65-73 | `?symbols=SOL,SOL` requests `solana` twice |
| PriceRoutes.CollectIds | src/routes/price.js:65-73 | the loop collects the supported ids in list order, and maps each id back to a listed symbol that has that id |
| PriceRoutes.Assemble | src/routes/price.js:78-83 | the loop's answer holds a symbol exactly when one of its ids has a non-null price, and then holds that price |
| PriceRoutes.AssembledAnswers | src/routes/price.js:65-83 | the two loops together give each supported listed symbol with a non-null price its own price, and nothing else |
| PriceRoutes.PricesFor | src/routes/price.js:78-83 | the answer object meets that specification |
| PriceRoutes.QuoteList | src/routes/price.js:65-84 | for a non-empty parsed list: 400 `no_supported_symbols` without a request when no symbol is supported; otherwise one request for the supported ids, 500 when it fails, else the answer object |
| PriceRoutes.SimpleHandler | src/routes/price.js:55-88 | 400 `symbols_required` exactly for an empty list and 400 `no_supported_symbols` exactly for a list with no supported symbol, both without a request; otherwise one request for the supported ids, 500 when it fails, else the answer object |
| PriceRoutes.RouteAsWritten | src/routes/price.js:34 | as registered, every non-empty segment, `simple` included, goes to the single-symbol handler |
| PriceRoutes.RouteFixed | src/routes/price.js:55 | with the list route first, it is chosen exactly for the segment `simple` in any letter case |
| PriceRoutes.SimpleShadowed | src/routes/price.js:34-38 | as registered, the router answers `/price/simple` with 400 `unsupported_symbol` for `SIMPLE` |
| PriceRoutes.RouteReachesBoth | src/routes/price.js:34-55 | with the fix, `simple` reaches the list handler and every supported symbol still reaches the quote handler |
| PriceRoutes.Dispatch | src/routes/price.js:34-88 | as registered, every non-empty segment, `simple` included, gets the quote handler's reply, and an empty one gets none |
| PriceRoutes.DispatchFixed | src/routes/price.js:34-88 | with the list route first, a quote segment gets the quote handler's reply, `simple` gets the list handler's replies, and an empty segment gets none |
| Quiz.Default | src/routes/quiz.js:10 | a destructuring default replaces `undefined` only |
| Quiz.RequestParams | src/routes/quiz.js:10 | each parameter is the body's field, or its default when the field is absent |
| Quiz.RequestDefaults | src/routes/quiz.js:10 | a missing body reads as Elo 1200, streak 0 and nothing answered today |
| Quiz.NullIsKept | src/routes/quiz.js:10 | an explicit `null` Elo is kept |
| Quiz.Min | src/routes/quiz.js:57 | `Math.min` is NaN exactly when an argument is NaN |
| Quiz.Max | src/routes/quiz.js:57 | `Math.max` is NaN exactly when an argument is NaN |
| Quiz.ClampIndexAsWritten | src/routes/quiz.js:57 | as written, a non-NaN index lands in [0, 3], but NaN stays NaN |
| Quiz.ClampIndex | src/routes/quiz.js:57 | corrected, the index always lands in [0, 3]; an index already inside is kept; NaN becomes 0 |
| Quiz.ClampIndexAgrees | src/routes/quiz.js:57 | the two clamps differ on NaN only |
| Quiz.ClampIndexEnds | src/routes/quiz.js:57 | out-of-range indices, the infinities included, go to the nearer end |
| Quiz.Choices | src/routes/quiz.js:56 | at most the first four entries of an array, each as a string; `[]` for anything else |
| Quiz.RawIndex | src/routes/quiz.js:57 | a falsy index reads as 0 and a truthy numeric one as itself |
| Quiz.IdOf | src/routes/quiz.js:54 | the id is the item's truthy id, else `q-` plus the generated id; never falsy |
| Quiz.QuestionOf | src/routes/quiz.js:55 | the question is trimmed, `""` when missing, and a string question is its own trim |
| Quiz.ExplanationOf | src/routes/quiz.js:58 | the explanation is `""` when missing, and a string explanation is kept |
| Quiz.DifficultyOf | src/routes/quiz.js:59 | the difficulty is the suggested one when the item has none, and the item's own, converted to a number, when it is truthy |
| Quiz.Sanitize | src/routes/quiz.js:53-60 | a truthy id, at most four choices, an index in [0, 3] unless the raw index is NaN, when it stays NaN; an in-range index kept |
| Quiz.SanitizeFixed | src/routes/quiz.js:53-60 | the corrected object differs from the written one only in the index, which always lies in [0, 3], and equals it whenever the raw index is a number |
| Quiz.Handle | src/routes/quiz.js:8-70 | a failed model call or a null item gives 500 `quiz_failed`; any other item is sent sanitised when it passes the gate and gets 500 `bad_question` with the raw item when it does not |
| Quiz.SentItemIsWellFormed | src/routes/quiz.js:53-65 | a sent item has a question and three or four choices; its index is in [0, 3] unless the raw index is NaN, when it is NaN |
| Quiz.NaNIndexSent | src/routes/quiz.js:53-65 | a question with text, four choices and an object as index is sent with a NaN index; the corrected sanitiser gives index 0 |
| Quiz.IndexPastThreeChoices | src/routes/quiz.js:56-63 | an item with three choices and index 3 is sent, its index naming no choice |
| Quiz.FullItemPasses | src/routes/quiz.js:55-63 | a question with text and at least four choices passes the gate |
| Quiz.NaNIndexEscapes | src/routes/quiz.js:57 | an object as index gives NaN as written and 0 when corrected |

## Left out

- The network, the clock, `Math.tanh`, `JSON.stringify`, number formatting (`String(n)`, `toFixed(2)`), number parsing (`Number(s)`), ISO time stamps, the uuid generator and environment variables are parameters. Nothing about their internals is modelled.
- `suggestDifficulty` (in `src/lib/rating.js`) draws on `Math.random`, so it is the parameter `suggest`. `src/lib/rating.js` is not part of this model.
- The language-model calls are not modelled. `src/lib/openai.js` defines and exports `generateText` only; the quiz's `generateJSON` (imported at `src/routes/quiz.js:2`) is not defined there, and where it would come from is not part of this model. The quiz sees the call's outcome as a `Result`. The chat model stops at what would be handed to the call.
- The system-prompt texts, the quiz prompt and its JSON schema are not modelled. A system prompt is named by its kind, and the chart prompt by its price line.
- The quiz handler does not enforce the schema's bounds (three to six choices, index up to 5, difficulty 800–2000). The model follows the code, which relies only on the sanitising at `src/routes/quiz.js:53-63`.
- Case mapping covers ASCII letters only. Unicode case rules (such as `ß` upper-casing to `SS`) are not modelled.
- Js.ToNumber: `Number(..)` of an array or object is NaN here. JavaScript converts through the string form instead (`Number([])` is 0, `Number([5])` is 5).
- HTTP framing, headers (the event-stream headers, `flushHeaders`), JSON body parsing limits and Express's own routing are not modelled. Routing is modelled only for the two price routes, and Express matches paths without regard to case.
- `src/server.js` does not mount the price routes of `src/routes/price.js`. They are modelled as a router on their own.
- JSON key order in replies is not modelled, and neither is the printing of NaN as `null`.
- Hub.ToAlert: `toAlert(null)` and a truthy `side`/`bias` that is not a string both throw in the code. `Hub.InDomain` excludes them, and so do the requires of `PulseRoutes.Webhook` and `PulseRoutes.Emit`, so the model does not describe the error reply those requests get.
- `Hub.Hub.Broadcast` visits subscribers in an unspecified order. The model proves the outcome for every order, because subscribers do not share state.
- PulseRoutes.Webhook: every alert of one request gets the same time stamp, because the model takes one `ts` per request. The code reads the clock once per item.
- The heartbeat timer is a flag, and each tick is a method call. Timer scheduling is not modelled.
- `SpotPrice.SpotCache.Valid` records only that each entry is a supported symbol's own spot, not which provider gave it.
- Concurrency between requests is not modelled. Each request runs to completion against the shared state.
- Source-vs-description differences, where the model follows the code:
  - an alert's default symbol is `-`;
  - a subscriber whose writes fail stays registered until it closes;
  - an explicit `validity` is neither clamped nor checked for NaN.

## Findings

| source | as written | input that shows it | evidently intended | confidence | as-written member | corrected member |
|---|---|---|---|---|---|---|
| src/routes/price.js:34 | `/price/:symbol` is registered before `/price/simple`, so it captures the segment `simple` | `GET /price/simple?symbols=SOL,ETH` is answered 400 `unsupported_symbol` for `SIMPLE` | `/price/simple` reaches the comma-list handler | high, not executed | PriceRoutes.SimpleShadowed | PriceRoutes.DispatchFixed |
| src/routes/quiz.js:57 | `Math.max(0, Math.min(3, Number(x)))` leaves NaN as NaN | an item whose `correctIndex` is `{}` or `"abc"` is sent with a NaN index (JSON `null`) | the index always lies in [0, 3] | high, not executed | Quiz.NaNIndexSent | Quiz.SanitizeFixed |
| src/routes/chat.js:33 | the pair pattern allows only white space and an optional `/` between base and quote | the message `ETH-PERP`, named in the comment on line 32, detects no symbol | `ETH-PERP` detects `ETH` | medium, not executed | Chat.ChartDashPairUndetected | Chat.DetectSymbol |

The route models (`PriceRoutes.Dispatch`, `Quiz.Handle`, `Chat.PrepareChat`) follow the code as written. The corrected definitions stand beside them: `PriceRoutes.DispatchFixed` with `PriceRoutes.RouteReachesBoth`, `Quiz.SanitizeFixed` with `Quiz.ClampIndex`, and `Chat.DetectSymbol` with `Chat.DashPairMissed` and `Chat.SeparatedPair`.

A related observation, not claimed as a bug: the quiz gate accepts three choices, while the clamp allows index 3. A sent item can therefore carry an index that names no choice (`Quiz.IndexPastThreeChoices`).

A second observation, not executed and outside the model: two static imports name exports that do not exist. `src/routes/quiz.js:2` imports `generateJSON` from `src/lib/openai.js`, which exports only `generateText`. `src/server.js:30` default-imports `src/routes/market.js`, which has only the named exports `getMarketSnapshot` (line 65) and `formatSnapshotForPrompt` (line 82). `src/server.js:29-30` import both modules statically, so an ES-module loader would refuse to link the server at start-up.
