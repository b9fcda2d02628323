# plugin-delta connectivity core, modelled in Dafny

This project models the deterministic core of the plugin-delta connectivity layer for the Delta Exchange derivatives API, and proves properties of that model:

- **Streaming session** (`src/services/DeltaWebSocketService.ts`), split across three modules:
  - module `StreamingSession` holds class `Session`. It covers the reconnect state machine (a bounded attempt counter, a pending-timer flag, `isConnected`), the retained subscription set, routing of inbound messages into the six caches, and the auth handshake.
  - module `OrderBook` covers the incremental order-book update and the checksum string.
  - module `Crc32` covers the table-driven CRC-32 of IEEE 802.3 clause 3.2.9 (reflected polynomial 0xEDB88320). It is proved equal to the bit-at-a-time shift register.
- **REST client** (`src/services/DeltaRestClient.ts`), module `RestClient`:
  - the first-match error classification of `handleError`;
  - the exact text `signRequest` signs;
  - the option-chain query;
  - the 429 retry rule of `getProducts` and `getTickerBySymbol`.
- **Instrument recognition** (`src/utils/instrument-parser.ts`), module `InstrumentParser`: the three tiers (option symbol, perpetual symbol, alias word) and their precedence.
- **Symbol aliases** (`src/utils/symbol-mapper.ts`), module `SymbolMapper`: the six-entry table, `mapSymbol` and `findSymbolInText`.
- Module `Text` holds the JavaScript string operations these rely on: `includes`, `endsWith`, `replace` with a string pattern, `split`, ASCII case mapping, and decimal rendering and `parseInt`.

How the model represents the parts it cannot run:

- The socket, timers and event emitter become events. Each socket or timer event is a `Session` method, handled atomically. Frames the session sends are appended to `Session.sent`, and events it emits to `Session.emitted`.
- A price level keeps its price and size as the texts the exchange sent. Two levels have the same price exactly when their price texts are equal. Sorting uses an integer ordering key `key: string -> int`, which stands for `parseFloat`.
- HMAC-SHA256 (RFC 2104 over FIPS 180-4 SHA-256) is an uninterpreted function parameter `hmac(secret, text)`.
- The clock is a parameter `nowMillis`.

## Model

| member | source | states |
|---|---|---|
| Crc32.SourceClock | src/services/DeltaWebSocketService.ts:725 | the source's conditional clock `c & 1 ? 0xEDB88320 ^ (c >>> 1) : c >>> 1` is one step of the reflected shift register |
| Crc32.ClocksEight | src/services/DeltaWebSocketService.ts:724-726 | eight clocks one at a time equal the eight written out |
| Crc32.ClockByte | src/services/DeltaWebSocketService.ts:723-726 | the inner loop of `makeCRCTable` leaves in `c` the byte `n` shifted through eight clocks |
| Crc32.MakeCRCTable | src/services/DeltaWebSocketService.ts:719-730 | the table has 256 entries, and entry `n` is the 8-step shift/xor of `n` |
| Crc32.Step8LowByte | src/services/DeltaWebSocketService.ts:714 | eight clocks shift the high 24 bits down unchanged and xor in a value that depends only on the low byte, which is why a 256-entry table suffices |
| Crc32.TableUpdateCorrect | src/services/DeltaWebSocketService.ts:714 | `(crc >>> 8) ^ table[(crc ^ b) & 0xff]` equals feeding byte `b` through the shift register bit by bit |
| Crc32.TableRegister | src/services/DeltaWebSocketService.ts:713-715 | folding the table update over a byte string gives the same register as the bit-at-a-time definition |
| Crc32.FoldSnoc | src/services/DeltaWebSocketService.ts:713-715 | one more byte adds exactly one update at the end of the fold |
| Crc32.FoldAgree | src/services/DeltaWebSocketService.ts:713-715 | two byte updates that agree everywhere fold to the same register |
| Crc32.FoldPrefix | src/services/DeltaWebSocketService.ts:714 | one iteration of the `crc32` loop extends the fold over the first `i` bytes to the first `i + 1` |
| Crc32.TableStep | src/services/DeltaWebSocketService.ts:714 | the loop body computes the table update of the register by the next byte |
| Crc32.Crc32 | src/services/DeltaWebSocketService.ts:710-717 | `crc32(s)` is the standard CRC-32 (preset all ones, final inversion) of the bytes `charCodeAt(i) & 0xff`; as a `bv32` it lies in [0, 2^32) |
| Crc32.Bytes | src/services/DeltaWebSocketService.ts:714 | the register sees exactly the low byte of each character code, one per character |
| Crc32.RegisterSnoc | src/services/DeltaWebSocketService.ts:713-715 | the register after one more byte follows from the register before it |
| Crc32.CheckValue | src/services/DeltaWebSocketService.ts:710-717 | the CRC of `123456789` is 0xCBF43926, the check value of CRC-32 as IEEE 802.3 defines it |
| Crc32.DigitBytes | src/services/DeltaWebSocketService.ts:714 | the characters `1`..`9` reach the register as the bytes 0x31..0x39 |
| OrderBook.FindPrice | src/services/DeltaWebSocketService.ts:685 | `findIndex` by price TEXT: the first level with an equal price string, or -1 when none has one |
| OrderBook.ApplyDeltaContents | src/services/DeltaWebSocketService.ts:684-696 | on a side with unique prices, a delta of size `'0'` removes the level at its price and keeps every other level. Any other size leaves exactly one level at that price, carrying the new size, and keeps every other level |
| OrderBook.SpliceContents | src/services/DeltaWebSocketService.ts:686-689 | `splice(index, 1)` removes exactly the level at that price and keeps every other level |
| OrderBook.OverwriteContents | src/services/DeltaWebSocketService.ts:691-692 | overwriting the size of the found level changes only that level's size |
| OrderBook.ApplyDeltaUnique | src/services/DeltaWebSocketService.ts:684-696 | one delta keeps the side's prices unique |
| OrderBook.ApplyDeltasUnique | src/services/DeltaWebSocketService.ts:684-697 | the whole `forEach` over the deltas keeps prices unique |
| OrderBook.InsertPermutes | src/services/DeltaWebSocketService.ts:698 | inserting a level into the sorted prefix adds exactly that level |
| OrderBook.InsertSorted | src/services/DeltaWebSocketService.ts:698 | inserting into a side sorted by numeric price keeps it sorted |
| OrderBook.InsertUnique | src/services/DeltaWebSocketService.ts:698 | inserting a level with a new price keeps prices unique |
| OrderBook.SortLevelsSorted | src/services/DeltaWebSocketService.ts:698 | the sort orders the side ascending by numeric price |
| OrderBook.SortLevelsPermutes | src/services/DeltaWebSocketService.ts:698 | the sort is a permutation of the side |
| OrderBook.SortLevelsUnique | src/services/DeltaWebSocketService.ts:698 | the sort keeps prices unique |
| OrderBook.ApplyOrderbookUpdate | src/services/DeltaWebSocketService.ts:683-699 | the loop applies the deltas in order (splice, overwrite or push), then sorts. The result is sorted ascending by numeric price, is a permutation of the edited side, and keeps prices unique when they were |
| OrderBook.BidsExample | src/services/DeltaWebSocketService.ts:683-699 | bids `[100,1],[99,2]` updated by `[99,'0'],[98,5]` become `[98,5],[100,1]` |
| OrderBook.LevelTexts | src/services/DeltaWebSocketService.ts:703-704 | `map(l => l.join(':'))` writes each level as `price:size`, one text per level, in order |
| OrderBook.SplitLevels | src/services/DeltaWebSocketService.ts:703-704 | a side's joined text splits on `:` back into its price and size texts |
| OrderBook.SideTextSplits | src/services/DeltaWebSocketService.ts:703-704 | the text of a side's first ten levels splits back into their fields |
| OrderBook.ChecksumStringSplits | src/services/DeltaWebSocketService.ts:701-705 | the checksum string is the first ten ASKS then `:` then the first ten BIDS. Split on `:`, it gives back those levels' prices and sizes, asks first. Where the asks end is not recorded |
| OrderBook.ChecksumStringBoundary | src/services/DeltaWebSocketService.ts:701-705 | asks `[a]` with bids `[b, c]` and asks `[a, b]` with bids `[c]` hash the same string |
| OrderBook.FieldsInjective | src/services/DeltaWebSocketService.ts:703-704 | equal price and size field lists come from equal levels |
| OrderBook.FieldsLength | src/services/DeltaWebSocketService.ts:703-704 | a side has two fields per level |
| OrderBook.ChecksumStringDetermines | src/services/DeltaWebSocketService.ts:701-705 | with colon-free texts, non-empty sides and the same number of asks among the first ten, books that hash the same string have the same first ten asks and the same first ten bids |
| OrderBook.VerifyChecksum | src/services/DeltaWebSocketService.ts:701-708 | `verifyChecksum` holds exactly when the CRC-32 of that checksum string equals the supplied checksum |
| StreamingSession.WithSuffix | src/services/DeltaWebSocketService.ts:446 | `symbols.map(s => s + '_' + interval)` suffixes every symbol, in order |
| StreamingSession.WireSymbols | src/services/DeltaWebSocketService.ts:281-573 | channels without a symbol argument send `['all']`, the others send the given symbols or default to `['all']`, and candlesticks suffix every symbol of the given list, or of `['all']`, with `_<interval>` |
| StreamingSession.FixedKeyNotCandlesticks | src/services/DeltaWebSocketService.ts:443-453 | no fixed channel key has the form `candlesticks_<interval>` |
| StreamingSession.KeyInjective | src/services/DeltaWebSocketService.ts:331-573 | distinct channels have distinct subscription keys, so each method adds or removes only its own key |
| StreamingSession.Added | src/services/DeltaWebSocketService.ts:333 | `Set.add` adds the key once, keeps insertion order, and keeps the set free of duplicates |
| StreamingSession.Removed | src/services/DeltaWebSocketService.ts:339 | `Set.delete` removes exactly that key and keeps the others in order |
| StreamingSession.AddedLast | src/services/DeltaWebSocketService.ts:427 | `Array.from(subscriptions)` lists a newly added key last |
| StreamingSession.OrderKey | src/services/DeltaWebSocketService.ts:223 | an order is keyed by `client_order_id` when it is non-empty, else by `order_id` |
| StreamingSession.Merged | src/services/DeltaWebSocketService.ts:204-210 | `{...existing, field: value}` sets that one field and keeps every other field of the existing record, if there is one |
| StreamingSession.Route | src/services/DeltaWebSocketService.ts:192-234 | `ticker`, `l2_orderbook`, `positions`, `margins` and `portfolio_margins` replace the entry for their key. `orders` are keyed by `OrderKey`. `mark_price` and `spot_price`/`v2/spot_price` set one field of the ticker record. Every other cache and entry is unchanged, and the other types change no cache |
| StreamingSession.PriceMergeKeepsTicker | src/services/DeltaWebSocketService.ts:204-210 | a price message keeps every other field of the cached ticker |
| StreamingSession.ErrorText | src/services/DeltaWebSocketService.ts:248 | the emitted error carries the payload's message when it is non-empty, and exactly `Unknown WebSocket error` when it is empty |
| StreamingSession.SignaturePayloadInjective | src/services/DeltaWebSocketService.ts:257-258 | the auth text `GET/realtime<timestamp>` determines the timestamp it was made for |
| StreamingSession.GatedConcat | src/services/DeltaWebSocketService.ts:281-316 | gating on OPEN distributes over consecutive sends |
| StreamingSession.GatedThree | src/services/DeltaWebSocketService.ts:326-328 | three gated sends are one gated send of three frames |
| StreamingSession.Session.constructor | src/services/DeltaWebSocketService.ts:44-71 | no socket, not connected, no attempts, no timers, empty subscriptions and caches; a missing key or secret is `''` |
| StreamingSession.Session.Connect | src/services/DeltaWebSocketService.ts:106-109 | `connect()` creates a new socket that is still connecting |
| StreamingSession.Session.Reconnect | src/services/DeltaWebSocketService.ts:151-171 | at 5 attempts or with a reconnect already pending, nothing changes. Otherwise attempts grow by exactly one and a reconnect is pending. The counter never exceeds 5 |
| StreamingSession.Session.ReconnectTimerFires | src/services/DeltaWebSocketService.ts:167-170 | the timer clears the pending flag before connecting |
| StreamingSession.Session.SendSubscription | src/services/DeltaWebSocketService.ts:281-298 | a subscribe frame is sent only when the socket is OPEN |
| StreamingSession.Session.SendUnsubscription | src/services/DeltaWebSocketService.ts:300-316 | an unsubscribe frame is sent only when the socket is OPEN |
| StreamingSession.Session.Subscribe | src/services/DeltaWebSocketService.ts:331-573 | every `subscribe*` adds exactly its key, open or not. Only the frame is gated on OPEN. The candlesticks key is `candlesticks_<interval>` |
| StreamingSession.Session.Unsubscribe | src/services/DeltaWebSocketService.ts:337-573 | every `unsubscribe*` removes exactly its key, open or not. Only the frame is gated on OPEN |
| StreamingSession.Session.AuthenticateAndSubscribe | src/services/DeltaWebSocketService.ts:255-322 | `auth` is sent, signed over `GET/realtime<seconds>`, only when both key and secret are non-empty. `v2/ticker` and `l2_orderbook` are subscribed for `['all']` in every case |
| StreamingSession.Session.OnOpen | src/services/DeltaWebSocketService.ts:111-117 | a successful open sets connected, resets attempts to 0, sends auth and the initial subscriptions, and starts the heartbeat |
| StreamingSession.Session.OnError | src/services/DeltaWebSocketService.ts:124-128 | an error event clears `isConnected` and runs `reconnect` |
| StreamingSession.Session.OnClose | src/services/DeltaWebSocketService.ts:130-135 | a close event clears `isConnected`, stops the heartbeat and runs `reconnect`, also for a socket `disconnect` has already dropped |
| StreamingSession.Session.OnCloseCorrected | src/services/DeltaWebSocketService.ts:130-135 | the close of a dropped socket changes nothing; the close of the current socket is handled as `OnClose` handles it |
| StreamingSession.Session.AuthFailureThenClose | src/services/DeltaWebSocketService.ts:235-245 | a failed `auth_ack`, the dropped socket's close event and the reconnect timer leave a new socket connecting, with one more attempt counted |
| StreamingSession.Session.AuthFailureLoops | src/services/DeltaWebSocketService.ts:110-116 | after a failed `auth_ack`, the close event, the timer and the open event, the socket is open again with the attempt counter back at 0 and the same auth frame sent again, so a rejected key is retried without end |
| StreamingSession.Session.AuthFailureThenCloseCorrected | src/services/DeltaWebSocketService.ts:235-245 | with the corrected close handler, a failed `auth_ack` leaves no socket, no pending reconnect and the attempt counter unchanged |
| StreamingSession.Session.Disconnect | src/services/DeltaWebSocketService.ts:138-149 | with a socket, it drops the socket, clears `isConnected`, stops the heartbeat and cancels a pending reconnect, but keeps the attempt counter. Without a socket nothing changes |
| StreamingSession.Session.HeartbeatTick | src/services/DeltaWebSocketService.ts:176-180 | a heartbeat tick sends a ping only when the socket is OPEN |
| StreamingSession.Session.UpdateOrderbookCache | src/services/DeltaWebSocketService.ts:665-681 | a snapshot replaces the symbol's book with `{asks, bids}`. An update for an uncached symbol changes nothing. Otherwise both sides get the deltas. A non-zero checksum that does not match sends `unsubscribe l2_updates` then `subscribe l2_updates [symbol]`, gated, without undoing the deltas |
| StreamingSession.Session.CheckBook | src/services/DeltaWebSocketService.ts:674-678 | with a non-zero checksum that the updated book does not match, `l2_updates` for the symbol is unsubscribed and subscribed again, each frame only when the socket is open; otherwise nothing is sent |
| StreamingSession.Session.SubscribeToPrivateChannels | src/services/DeltaWebSocketService.ts:324-329 | adds `positions`, `orders`, `portfolio_margins` in that order, each with `['all']` |
| StreamingSession.Session.HandleAuthAck | src/services/DeltaWebSocketService.ts:235-245 | a successful `auth_ack` subscribes the three private channels; a failed one disconnects |
| StreamingSession.Session.HandleMessage | src/services/DeltaWebSocketService.ts:190-253 | the message is emitted under its type, then routed. Plain types change the caches as `Route` says. An `l2_updates` message throws exactly when it updates a raw `l2_orderbook` entry; otherwise a snapshot replaces the book, an update of a cached book applies `UpdatedSide` to both sides and sends the resync frames when the checksum is non-zero and does not match, and anything else changes nothing. `auth_ack` subscribes or disconnects. An `error` message also emits an error event. Nothing else changes. An `Other` message never carries a type that has a case of its own (`WellFormed`) |
| RestClient.ErrorMessage | src/services/DeltaRestClient.ts:502 | the text every check tests is `data.message` when non-empty, else the JSON of `data` |
| RestClient.AuthCheck | src/services/DeltaRestClient.ts:505-511 | a 401/403 gives one of the three specific authentication errors or the generic one, carrying the status and message |
| RestClient.OrderCheck | src/services/DeltaRestClient.ts:516-531 | a request-status error is an order error or the generic request error, and quotes the message |
| RestClient.FirstMatchFrom | src/services/DeltaRestClient.ts:508-530 | the first rule whose code the message contains wins; with none, no rule matches |
| RestClient.AuthTable | src/services/DeltaRestClient.ts:508-510 | the 401/403 checks run in order: `signature expired`, `Invalid API Key`, `IP not whitelisted` |
| RestClient.OrderTable | src/services/DeltaRestClient.ts:524-530 | the order codes are checked in order: insufficient_margin, order_size_exceed_available, risk_limits_breached, invalid_contract, immediate_liquidation, out_of_bankruptcy, then either post-only code |
| RestClient.AuthCheckByTable | src/services/DeltaRestClient.ts:505-511 | the 401/403 branch is the first match of the auth table, else the generic authentication error |
| RestClient.OrderCheckByTable | src/services/DeltaRestClient.ts:516-531 | the request branch is the first match of the order table, else `Request Error: Status N` |
| RestClient.ClassifyMatchesTable | src/services/DeltaRestClient.ts:497-545 | `handleError` agrees on every input with the rule-table reference classification |
| RestClient.ClassifyByStatus | src/services/DeltaRestClient.ts:497-545 | a response is classified within the branch its status selects: 401/403, 429, the request statuses 400/404/405/406/409/412/422, 500, or the default. The error names that status and quotes `ErrorMessage(data)`. No response gives No Response, a setup failure gives Request Error, and a non-axios error gives the unexpected error |
| RestClient.RenderQuotesMessage | src/services/DeltaRestClient.ts:511-535 | every error except the three fixed authentication texts contains the message it was classified on |
| RestClient.RateLimitNamesWait | src/services/DeltaRestClient.ts:512-515 | the rate-limit error names the `retry-after` value, or `some time` when absent |
| RestClient.InvalidApiKeyExample | src/__tests__/DeltaRestClient.test.ts:83-93 | a 401 with message `Invalid API Key` gives the Invalid API Key message |
| RestClient.MethodLetters | src/services/DeltaRestClient.ts:490 | the signed HTTP methods are runs of capital letters |
| RestClient.RunsSplit | src/services/DeltaRestClient.ts:491 | capitals, then digits, then a non-digit text split back into those three parts |
| RestClient.SignedTextParts | src/services/DeltaRestClient.ts:490-491 | the signed text is method ++ decimal(timestamp) ++ path ++ query ++ payload. The method and timestamp can be read back from it |
| RestClient.SignedTextInjective | src/services/DeltaRestClient.ts:490-495 | equal signed texts come from the same method, second and path ++ query ++ payload. Since the signature is `hmac(secret, text)`, equal inputs sign alike |
| RestClient.FieldNamesClean | src/services/DeltaRestClient.ts:289-291 | no fixed field name of the option-chain query contains `&` |
| RestClient.OptionChainQueryFields | src/services/DeltaRestClient.ts:288-292 | the query is `product_type=option`, `underlying_asset=<u>` and, only for a non-empty expiry, `expiry=<e>`, joined by `&` |
| RestClient.QueryWithoutExpiry | src/services/DeltaRestClient.ts:289 | without an expiry the query has exactly two fields |
| RestClient.QueryWithExpiry | src/services/DeltaRestClient.ts:289-292 | with an expiry the query has exactly three fields |
| RestClient.OptionChainSignsItsQuery | src/services/DeltaRestClient.ts:285-300 | the text after `?` in the URL is the query that is signed, with an empty payload and the header timestamp |
| RestClient.OptionChainExample | src/__tests__/DeltaRestClient.test.ts:78-80 | the chain of `BTC` without an expiry is requested at `/v2/tickers?product_type=option&underlying_asset=BTC` |
| RestClient.MagnitudeDecimal | src/services/DeltaRestClient.ts:64 | `parseInt` reads back a decimal numeral that is followed by a non-digit |
| RestClient.SkipSpace | src/services/DeltaRestClient.ts:64 | `parseInt` skips leading white space |
| RestClient.ParseIntDecimal | src/services/DeltaRestClient.ts:64 | a `retry-after` of N seconds, with surrounding white space and junk after it, parses to N |
| RestClient.SignedNegative | src/services/DeltaRestClient.ts:64 | a minus sign negates the magnitude |
| RestClient.ParseIntNegative | src/services/DeltaRestClient.ts:64 | `-N` parses to -N |
| RestClient.SignedNoDigit | src/services/DeltaRestClient.ts:64 | a text without digits is not a number |
| RestClient.RetryDelay | src/services/DeltaRestClient.ts:63-64 | an absent or empty `retry-after` waits 5000 ms |
| RestClient.RetryDelayNaN | src/services/DeltaRestClient.ts:64 | a `retry-after` without digits gives a NaN delay |
| RestClient.RetryDelaySeconds | src/services/DeltaRestClient.ts:64 | `retry-after: N` waits N × 1000 ms |
| RestClient.OnFailureRetriesOnlyRateLimits | src/services/DeltaRestClient.ts:57-105 | only `getProducts` and `getTickerBySymbol` retry, only on 429, after the header's delay. Every other failure throws the classified message |
| RestClient.OnFailureWaits | src/services/DeltaRestClient.ts:57-105 | a rate-limited read with `retry-after: N` retries after N × 1000 ms, and without the header after 5000 ms |
| SymbolMapper.Lookup | src/utils/symbol-mapper.ts:1-8 | the table has exactly its six entries, and every value is BTCUSD, ETHUSD or SOLUSD |
| SymbolMapper.MapSymbol | src/utils/symbol-mapper.ts:10-12 | every defined result is BTCUSD, ETHUSD or SOLUSD |
| SymbolMapper.MapSymbolIgnoresCase | src/utils/symbol-mapper.ts:10-12 | `mapSymbol` ignores case |
| SymbolMapper.ResolveWord | src/utils/symbol-mapper.ts:17-26 | the direct alias first, then for a word ending in `usd` the word with its first `usd` removed. Any result is one of the three symbols |
| SymbolMapper.FirstResolved | src/utils/symbol-mapper.ts:16-28 | the scan returns the result of the first word that resolves, and undefined only when no word resolves |
| SymbolMapper.FindSymbolInText | src/utils/symbol-mapper.ts:14-29 | splits the lower-cased text on single spaces; every defined result is one of the three symbols |
| SymbolMapper.AliasesHaveNoUs | src/utils/symbol-mapper.ts:1-8 | no alias contains `us` |
| SymbolMapper.AliasesEndOtherwise | src/utils/symbol-mapper.ts:1-8 | no alias ends in `d` |
| SymbolMapper.FirstUsdAppended | src/utils/symbol-mapper.ts:22 | in `<alias>usd` the first `usd` is the appended one |
| SymbolMapper.StripUsd | src/utils/symbol-mapper.ts:21-23 | `<alias>usd` is not an alias itself, and removing its first `usd` gives the alias back |
| SymbolMapper.UsdNoOverlap | src/utils/symbol-mapper.ts:21-22 | two occurrences of `usd` less than three characters apart are the same occurrence |
| SymbolMapper.CutKeepsLast | src/utils/symbol-mapper.ts:22 | removing three characters before the last one keeps the last character |
| SymbolMapper.StripUsdOnlyAtEnd | src/utils/symbol-mapper.ts:21-23 | the strip resolves only when the first `usd` is the final one |
| SymbolMapper.ResolveWordIff | src/utils/symbol-mapper.ts:17-26 | a word resolves to a symbol exactly when it is an alias of it, alone or followed by `usd`; both directions are proved |
| SymbolMapper.PropertyOf | src/utils/symbol-mapper.ts:17 | `symbolMap[key]` as JavaScript evaluates it for a key without upper-case letters (every key the source looks up) also answers the inherited keys `constructor` and `__proto__` |
| SymbolMapper.MapSymbolAsWritten | src/utils/symbol-mapper.ts:10-12 | the prototype-reaching lookup agrees with `MapSymbol` wherever it yields a string |
| SymbolMapper.MapSymbolConstructor | src/utils/symbol-mapper.ts:10-12 | `mapSymbol('constructor')` as written is the inherited `Object` constructor, while the table has no entry for it |
| SymbolMapper.FirstResolvedAgrees | src/utils/symbol-mapper.ts:16-28 | a scan whose lookup also reaches the prototype agrees with the own-entry scan whenever it yields a string. It agrees entirely when no word resolves only to an inherited member |
| SymbolMapper.InheritedNotUsd | src/utils/symbol-mapper.ts:21 | neither inherited key ends in `usd` |
| SymbolMapper.ResolveWordAsWritten | src/utils/symbol-mapper.ts:17-26 | one word as written, with both lookups reaching the prototype: any string it yields is `ResolveWord`'s answer, and every answer of `ResolveWord` is yielded |
| SymbolMapper.FindSymbolInTextAsWritten | src/utils/symbol-mapper.ts:14-29 | any string the search as written answers is `FindSymbolInText`'s answer; where `FindSymbolInText` finds nothing, it finds nothing or an inherited member |
| SymbolMapper.ResolveConstructor | src/utils/symbol-mapper.ts:17-25 | `constructor` and `constructorusd` resolve as written to the inherited `Object` constructor, and to nothing through the own entries |
| SymbolMapper.LoneWordScan | src/utils/symbol-mapper.ts:15-16 | a lower-case text without spaces is a single word, scanned alone |
| SymbolMapper.FindSymbolConstructor | src/utils/symbol-mapper.ts:14-29 | `findSymbolInText('constructor')` and `findSymbolInText('constructorusd')` as written return the `Object` constructor, while the own-entry search finds nothing |
| SymbolMapper.FirstResolvedAsWritten | src/utils/instrument-parser.ts:30-34 | a scan with the prototype-reaching lookup agrees with the own-entry scan whenever it yields a string. With no inherited key among the words, it agrees entirely |
| InstrumentParser.OptionAt | src/utils/instrument-parser.ts:10 | the option regex anchored at a position matches inside the text |
| InstrumentParser.SpanSlices | src/utils/instrument-parser.ts:10 | the head, strike, dash and date of a span are the matching slices of the text |
| InstrumentParser.OptionAtSound | src/utils/instrument-parser.ts:10 | what the greedy regex matches has the option shape: `C` or `P`, then `-BTC-`, one or more digits, `-` and six digits |
| InstrumentParser.OptionAtComplete | src/utils/instrument-parser.ts:10 | every option-shaped span is what the regex matches at its start |
| InstrumentParser.OptionAtIff | src/utils/instrument-parser.ts:10 | the regex matches a span exactly when the span is option-shaped |
| InstrumentParser.Leftmost | src/utils/instrument-parser.ts:17-23 | `match` without `g` finds the leftmost position where the pattern matches |
| InstrumentParser.OptionTier | src/utils/instrument-parser.ts:17-20 | the option tier returns an option-shaped symbol |
| InstrumentParser.OptionTierLeftmost | src/utils/instrument-parser.ts:16-20 | the option tier answers exactly when an option symbol occurs, and returns the leftmost one |
| InstrumentParser.PerpetualAt | src/utils/instrument-parser.ts:11 | the perpetual regex matches at a position exactly when BTCUSD, ETHUSD or SOLUSD starts there |
| InstrumentParser.PerpetualTier | src/utils/instrument-parser.ts:23-26 | the perpetual tier returns one of the three symbols |
| InstrumentParser.PerpetualTierLeftmost | src/utils/instrument-parser.ts:22-26 | the perpetual tier answers exactly when a perpetual symbol occurs, and returns the leftmost one |
| InstrumentParser.PatternTiers | src/utils/instrument-parser.ts:14-26 | the two regex tiers on the upper-cased text return an option shape or one of the three symbols |
| InstrumentParser.FindInstrumentInText | src/utils/instrument-parser.ts:13-37 | every defined result is an upper-case option symbol starting `C-BTC-`/`P-BTC-`, or one of BTCUSD, ETHUSD, SOLUSD |
| InstrumentParser.FindInstrumentPrecedence | src/utils/instrument-parser.ts:16-36 | an option symbol anywhere wins. Otherwise a perpetual symbol wins. Otherwise the result is undefined exactly when no split part is an alias |
| InstrumentParser.FindInstrumentAlias | src/utils/instrument-parser.ts:29-34 | an alias answer is the symbol of the first part of `split(/[\s\-_]+/)` that is an alias |
| InstrumentParser.FindInstrumentIgnoresCase | src/utils/instrument-parser.ts:14-29 | the same text in capitals names the same instrument |
| InstrumentParser.OptionTierNeedsDash | src/utils/instrument-parser.ts:10 | a text without `-` has no option symbol |
| InstrumentParser.PerpetualTierNeedsD | src/utils/instrument-parser.ts:11 | a text without `D` has no perpetual symbol |
| InstrumentParser.SymbolLetters | src/utils/instrument-parser.ts:11 | the perpetual symbols are upper case, contain no dash, and have their first `U` fourth |
| InstrumentParser.PerpetualHasU | src/utils/instrument-parser.ts:11 | a perpetual symbol has `U` as its fourth letter |
| InstrumentParser.PerpetualTierAt | src/utils/instrument-parser.ts:23-26 | a perpetual symbol with none before it is the tier's answer |
| InstrumentParser.PerpetualAfterWords | src/utils/instrument-parser.ts:13-26 | a perpetual symbol after words without `-` or `u` is the instrument found |
| InstrumentParser.GetTickerExample | src/__tests__/actions.test.ts:53-57 | `get ticker BTCUSD` names `BTCUSD` |
| InstrumentParser.LoneWord | src/utils/instrument-parser.ts:29-34 | a lower-case word without a dash or `d` is simply looked up |
| InstrumentParser.FindInstrumentInTextAsWritten | src/utils/instrument-parser.ts:31-32 | with the prototype-reaching lookup, a string answer equals `FindInstrumentInText`'s answer |
| InstrumentParser.ConstructorInstrument | src/utils/instrument-parser.ts:29-36 | the text `constructor` names no instrument, yet the search as written answers with the `Object` constructor |
| Text.IndexOfFrom | src/utils/symbol-mapper.ts:22 | the first occurrence at or after `from`, with none earlier; none when the text does not occur |
| Text.ContainsIff | src/services/DeltaRestClient.ts:508 | `includes` holds exactly when the text occurs somewhere |
| Text.ContainsPiece | src/services/DeltaRestClient.ts:511-535 | a concatenation contains each of its pieces |
| Text.ContainsInSuffix | src/services/DeltaRestClient.ts:515 | what a suffix contains, the whole text contains |
| Text.NotInConcat | src/services/DeltaRestClient.ts:289-291 | a character in neither part is not in their concatenation |
| Text.ReplaceFirst | src/utils/symbol-mapper.ts:22 | `replace` with a string pattern replaces only the first occurrence |
| Text.ToLower | src/utils/symbol-mapper.ts:11-15 | `toLowerCase` maps each character and keeps the length |
| Text.ToUpper | src/utils/instrument-parser.ts:14 | `toUpperCase` maps each character and keeps the length |
| Text.LowerOfUpper | src/utils/instrument-parser.ts:14-29 | lower-casing the upper-cased text equals lower-casing the text |
| Text.Split | src/utils/symbol-mapper.ts:15 | `split(' ')` gives at least one part |
| Text.JoinSplit | src/utils/symbol-mapper.ts:15 | joining the parts of `split(c)` with `c` gives the text back |
| Text.SplitAppend | src/services/DeltaWebSocketService.ts:705 | splitting distributes over a separator |
| Text.SplitClean | src/services/DeltaWebSocketService.ts:703 | a text without the separator splits into itself |
| Text.SplitTwo | src/services/DeltaRestClient.ts:289 | two fields joined by the separator split back |
| Text.SplitThree | src/services/DeltaRestClient.ts:289-291 | three fields joined by the separator split back |
| Text.SplitPartsClean | src/utils/symbol-mapper.ts:15 | no part contains the separator |
| Text.SplitRuns | src/utils/instrument-parser.ts:29 | `split(/[\s\-_]+/)` gives at least one part |
| Text.SplitRunsKeepsText | src/utils/instrument-parser.ts:29 | splitting on separator runs loses exactly the separator characters |
| Text.SplitRunsWord | src/utils/instrument-parser.ts:29 | a word without separators is its own single part |
| Text.SplitRunsPartsClean | src/utils/instrument-parser.ts:29 | no part contains a separator character |
| Text.FlattenCons | src/utils/instrument-parser.ts:29 | flattening a part extended at the front extends the flattened text at the front |
| Text.Span | src/services/DeltaRestClient.ts:64 | the longest prefix of characters satisfying the predicate |
| Text.SpanOf | src/services/DeltaRestClient.ts:64 | a maximal prefix of such characters is the span |
| Text.NatToDecimal | src/services/DeltaRestClient.ts:491 | the decimal rendering is non-empty digits with no leading zero |
| Text.DecimalRoundTrip | src/services/DeltaRestClient.ts:491 | reading back the decimal rendering gives the number |
| Text.NatToDecimalInjective | src/services/DeltaRestClient.ts:491 | distinct numbers render as distinct texts |

## Left out

- The `ws`/`window.WebSocket` transport, `JSON.parse` of frames and JSON serialisation of outbound frames are left out. Inbound frames are the tagged union `StreamingSession.Message`, and outbound frames the union `Outbound`. A cached record is a map from field name to JSON text.
- The `setTimeout` reconnect timer, the `setInterval` heartbeat, their delays (5000 ms and 30000 ms) and the unused idle timeout are left out. Timers are events: `ReconnectTimerFires` and `HeartbeatTick`.
- `EventEmitter` listeners and the `on*` registration methods are left out. Only the sequence of emitted event names is kept. Node's emitter throws when `'error'` is emitted with no listener attached; the model does not capture that.
- The in-place mutation and aliasing of the cached level arrays (the snapshot stores the message's own `asks`/`bids` arrays, and `currentLevels[index][1] = size` edits a shared level) is modelled on values. `OrderBook.ApplyOrderbookUpdate` returns the new side, and the cache entry is replaced. The order of edits and the final contents are kept; aliasing between the message and the cache is not.
- `parseFloat` of prices is floating point. The sort uses an abstract integer key per price text. `Array.prototype.sort` is modelled as a stable insertion sort, which ES2019 and later require of it; comparisons involving NaN are not modelled.
- An `l2_orderbook` entry in the order-book cache is stored raw. An `'update'` for such a symbol reads `undefined` sides and throws in the source; the model reports `thrown` and changes nothing. The model assumes such a raw entry has no `asks`/`bids` fields.
- The checksum `cs` is an integer; `0` (and an absent `cs`) skip verification. Non-integer checksums, which can never match, are not modelled.
- JavaScript's full Unicode `toUpperCase`/`toLowerCase` is left out: case mapping is ASCII only, so characters whose case mapping changes length (`ß`) are not modelled.
- HMAC-SHA256 and SHA-256 are an uninterpreted parameter `hmac`. `Date.now()` is the parameter `nowMillis`.
- The axios HTTP calls, the request timeout, and the waiting before a retry are left out. The recursion of the retry is unbounded in the source; `OnFailure` models one decision, to retry after a delay or to throw, not the loop of retries.
- The other REST operations (orders, positions, balances, heartbeat, MMP) only forward their parameters. They appear only as `Operation` values in the retry rule.
- `RestClient.RetryDelay`: `parseInt` is modelled on exact integers. Very long numerals, where JavaScript's floating-point result loses precision, are not distinguished.
- The providers, evaluators, action handlers, plugin registration, configuration schema and type declarations are outside this model.
- `SymbolMapper.MapSymbol`, `SymbolMapper.FindSymbolInText` and `InstrumentParser.FindInstrumentInText` use each alias table as exactly its six own entries. The prototype-reaching lookup as written is modelled separately (`MapSymbolAsWritten`, `FindSymbolInTextAsWritten`, `FindInstrumentInTextAsWritten`); see Findings.
- `Crc32.Bytes`: a Dafny `char` is a Unicode scalar value, while `charCodeAt` walks UTF-16 code units. A character above U+FFFF is one byte here and two in the source, so such texts are not modelled. The texts hashed are price and size numerals, which are ASCII.
- `StreamingSession.Session.HandleMessage` requires `WellFormed(m)`: a message whose type has a case of its own is always carried by that case's constructor, never by `Other`.
- The close handler has no notion of which socket closed. `OnClose` and `OnCloseCorrected` tell a dropped socket only by `socket` being `NoSocket`; a dropped socket that closes after a new one was created is not modelled.

## Findings

| source | as written | input that shows it | evidently intended | confidence | as-written member | corrected member |
|---|---|---|---|---|---|---|
| src/utils/symbol-mapper.ts:11 | `symbolMap[input.toLowerCase()]` also reads keys inherited from `Object.prototype` | `mapSymbol('constructor')` returns the `Object` function instead of `undefined` | only the six own entries answer | high (proved; not executed) | SymbolMapper.MapSymbolConstructor | SymbolMapper.MapSymbol |
| src/utils/instrument-parser.ts:31-32 | the alias tier reads `symbolMap[part]` through the prototype | `findInstrumentInText('constructor')` returns the `Object` function instead of `undefined` | no instrument is found | high (proved; not executed) | InstrumentParser.ConstructorInstrument | InstrumentParser.FindInstrumentInText |
| src/utils/symbol-mapper.ts:17-25 | both lookups of `findSymbolInText` read `symbolMap` through the prototype | `findSymbolInText('constructor')` and `findSymbolInText('constructorusd')` return the `Object` function instead of `undefined` | no symbol is found | high (proved; not executed) | SymbolMapper.FindSymbolConstructor | SymbolMapper.FindSymbolInText |
| src/services/DeltaWebSocketService.ts:130-135 | the close handler stays attached to the socket `disconnect` drops, and runs `reconnect` when that socket closes | after `auth_ack` with `success: false` (or `stop()`), the close event schedules a reconnect and the timer opens a new socket. Its open event resets the attempt counter to 0 and authenticates again, so a rejected key loops without end and the five-attempt limit never stops it | a session that disconnected on purpose stays disconnected | medium (not executed; depends on the close event firing after `close()`, as WebSocket implementations do) | StreamingSession.Session.AuthFailureThenClose | StreamingSession.Session.OnCloseCorrected |

## Notes on the code

- The checksum string is the first ten asks, then `:`, then the first ten bids. It does not record where the asks end: asks `1:1` with bids `2:2`, `3:3` and asks `1:1`, `2:2` with bids `3:3` both give `1:1:2:2:3:3` (`OrderBook.ChecksumStringBoundary`).
- Only the size text `'0'` removes a level, so `'0.0'` would be stored as a level.
- Reconnection stops silently after five attempts; no failure state or event is produced.
- The retained subscription set is recorded but never replayed. After an open, only `v2/ticker` and `l2_orderbook` are re-sent with `['all']`; the private channels follow a successful `auth_ack`.
- The sort is ascending by numeric price on both sides, so bids `[100,1],[99,2]` updated by `[99,'0'],[98,5]` become `[98,5],[100,1]` (`OrderBook.BidsExample`).
