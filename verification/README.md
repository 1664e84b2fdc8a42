# WebSocket price codecs of the NCFX and CryptoCompare adapters

This project models, in Dafny, the wire codecs of two WebSocket price
adapters of the external-adapters monorepo:

- the **NCFX crypto** endpoint (`packages/sources/ncfx/src/endpoint/crypto.ts`):
  a login handshake decided by the first inbound frame, a `message` decoder
  that ignores informational messages (those with a `Type` property), drops
  price messages whose `currencyPair`, `mid`, `bid` or `offer` is falsy and
  otherwise emits one result keyed by `currencyPair` split on `/`, and the
  `subscribe`/`unsubscribe` builders that send `{request, ccy: "BASE/QUOTE"}`;
- the **CryptoCompare** WebSocket endpoint
  (`packages/sources/cryptocompare-test/src/endpoint/crypto-ws.ts`): a
  handshake that waits for `STREAMERWELCOME`, a decoder that turns a
  `TYPE === '5'` message carrying `PRICE` into one price result, an
  `INVALID_SUB` report into one 400 error keyed by fields 2 and 3 of the
  `~`-separated `PARAMETER`, and anything else into an empty array, and the
  `SubAdd`/`SubRemove` builders around `5~CCCAGG~BASE~QUOTE`.

Files:

- `wrappers.dfy` (`Wrappers`): `Option`, standing for JavaScript's `undefined`.
- `json.dfy` (`Json`): parsed JSON values and objects, property reads,
  truthiness, strict string comparison and `v || 0`.
- `strings.dfy` (`Strings`): `String.prototype.split` with a one-character
  separator, its inverse `Join`, and the round-trip lemmas between them.
- `transport.dfy` (`WsTransport`): the handler interface of the framework's
  WebSocket transport, reduced to values: the steps an `open` handler takes,
  the first-settle-wins promise it returns (`Listen` folds the listener over
  the inbound frames), and the outcome of a `message` handler
  (`undefined`, an array of results, or a thrown `TypeError`).
- `ncfx.dfy` (`NcfxCrypto`) and `cryptocompare.dfy` (`CryptoCompareWs`): the
  two codecs.

Messages are already-parsed JSON objects (`map<string, Value>`). A property
read of a missing key is `undefined` (`None`); since a parsed object never
holds `undefined`, `message.Type !== undefined` is key membership, like
`'PRICE' in message`. Truthiness follows JavaScript for every JSON value:
`null`, `false`, `0` and `""` are falsy. Calling `.split` on a value that is
not a string throws a `TypeError`, which the model keeps as the `Threw`
outcome: it happens in NCFX when `currencyPair` is truthy but not a string,
and in CryptoCompare when an `INVALID_SUB` has no string `PARAMETER`.
Converting a value to a string throws too when the value is an object with
its own `toString` property (never callable in JSON), or an array holding
one. NCFX does such conversions in two places. Its debug line for an
informational message interpolates `Type` and `Message`, and
`new Date(message.timestamp)` converts the timestamp. Both throws are part of
the `Threw` outcome.

The two decoders order and filter differently. The CryptoCompare decoder
tests for a price update before `INVALID_SUB`, so a message that is both
yields the price; and it tests only for the presence of `PRICE`, so a
`PRICE` of `0` or `null` is forwarded. The NCFX decoder tests for an
informational message first and then drops every price message whose pair
or prices are falsy, a price of `0` included.

Both adapters recover a pair by position, so the round trips hold only for
symbols free of the separator. A base of `A/B` subscribes with
`ccy` `A/B/USD`, and a price for it is stored under base `A`, quote `B`. A
base of `A~B` subscribes with `5~CCCAGG~A~B~USD`, and an `INVALID_SUB` for it
is reported against (`A`, `B`).

## Model

| member | source | states |
|---|---|---|
| Strings.Split | packages/sources/ncfx/src/endpoint/crypto.ts:91 | `split` on a one-character separator yields at least one piece and no piece contains the separator |
| Strings.SplitLength | packages/sources/cryptocompare-test/src/endpoint/crypto-ws.ts:76 | `split` yields one more piece than there are separators |
| Strings.JoinSplit | packages/sources/cryptocompare-test/src/endpoint/crypto-ws.ts:76 | joining the pieces of `split` with the separator gives back the original string |
| Strings.SplitNoSeparator | packages/sources/ncfx/src/endpoint/crypto.ts:91 | a string without the separator splits into itself alone |
| Strings.SplitAfterField | packages/sources/ncfx/src/endpoint/crypto.ts:91 | a separator-free first field followed by the separator is the first piece; the rest splits independently |
| Strings.SplitJoin | packages/sources/cryptocompare-test/src/endpoint/crypto-ws.ts:76-78 | splitting a join of separator-free pieces gives back exactly those pieces |
| WsTransport.Listen | packages/sources/ncfx/src/endpoint/crypto.ts:57-67 | the handshake promise stays pending exactly until the listener has seen a frame |
| WsTransport.FirstFrameDecides | packages/sources/ncfx/src/endpoint/crypto.ts:57-67 | because resolve/reject on a settled promise do nothing, the handshake is settled by the first frame's verdict alone |
| WsTransport.SettledIsFinal | packages/sources/cryptocompare-test/src/endpoint/crypto-ws.ts:46-57 | frames arriving after the first cannot change a settled handshake |
| NcfxCrypto.OpenSteps | packages/sources/ncfx/src/endpoint/crypto.ts:56-77 | the listener is registered before anything is sent, and the only frame sent is the login `{request:'login', username, password}` |
| NcfxCrypto.HandshakeOutcome | packages/sources/ncfx/src/endpoint/crypto.ts:57-67 | the connection is ready iff the first frame is the login confirmation; any other first frame rejects with its text; later frames change nothing |
| NcfxCrypto.Decode | packages/sources/ncfx/src/endpoint/crypto.ts:80-108 | an info message (one with `Type`) never yields a result, whatever its other fields: it yields `undefined`, or throws exactly when its `Type` or `Message` cannot be converted for the debug line. A non-info message with a falsy pair or price yields `undefined`. A result is returned iff the filter passes, the pair is a string and the timestamp converts; otherwise such a message throws. The one result passes `mid`, `bid`, `offer` and `timestamp` through unchanged (the fallbacks to 0 never apply) and is keyed by the first two pieces of the pair split on `/` |
| NcfxCrypto.ZeroPriceDropped | packages/sources/ncfx/src/endpoint/crypto.ts:86-89 | a `mid`, `bid` or `offer` of 0 never yields a result; a non-info message with one yields `undefined` instead of forwarding a zero |
| NcfxCrypto.DeclaredShapesNeverThrow | packages/sources/ncfx/src/endpoint/crypto.ts:18-29 | when `Type`, `Message`, `timestamp` and `currencyPair` are absent or strings, as the message types declare, the decoder never throws |
| NcfxCrypto.SubscribeMessage | packages/sources/ncfx/src/endpoint/crypto.ts:111-114 | the subscribe frame has exactly the keys `request` and `ccy`, `request` is `subscribe`, `ccy` is base and quote joined by `/`, and for `/`-free symbols splitting `ccy` on `/` (the decoder's split of `currencyPair`) gives back exactly [base, quote] |
| NcfxCrypto.UnsubscribeMessage | packages/sources/ncfx/src/endpoint/crypto.ts:115-118 | the unsubscribe frame is the subscribe frame for the same pair with `request` set to `unsubscribe` |
| NcfxCrypto.BuildersShareCcy | packages/sources/ncfx/src/endpoint/crypto.ts:111-118 | subscribe and unsubscribe carry the same `ccy` and differ in `request` (`subscribe` vs `unsubscribe`) |
| NcfxCrypto.CcyRoundTrip | packages/sources/ncfx/src/endpoint/crypto.ts:91-113 | when neither symbol contains `/`, splitting the builder's `ccy` on `/` gives back exactly (base, quote) |
| NcfxCrypto.SubscribeInjective | packages/sources/ncfx/src/endpoint/crypto.ts:111-114 | for `/`-free symbols, two pairs with the same subscribe frame are the same pair |
| NcfxCrypto.SubscribedPairPriceDelivered | packages/sources/ncfx/src/endpoint/crypto.ts:86-107 | for `/`-free symbols, a non-zero price push whose `currencyPair` is a subscribed `ccy` yields one result keyed by that pair with the prices and timestamp unchanged |
| CryptoCompareWs.OpenSteps | packages/sources/cryptocompare-test/src/endpoint/crypto-ws.ts:45-58 | the handler registers the listener and sends no login frame |
| CryptoCompareWs.HandshakeOutcome | packages/sources/cryptocompare-test/src/endpoint/crypto-ws.ts:46-57 | the connection is ready iff the first frame is the welcome; otherwise it rejects; later frames change nothing |
| CryptoCompareWs.Decode | packages/sources/cryptocompare-test/src/endpoint/crypto-ws.ts:59-92 | never `undefined` and at most one result; a price update yields one price result keyed by `FROMSYMBOL`/`TOSYMBOL` with `result` and `data.result` both `PRICE`; otherwise an `INVALID_SUB` with a string `PARAMETER` yields one error with status 400 and the fixed text keyed by fields 2 and 3 of `PARAMETER` split on `~`, and one without it throws; every other message yields the empty array, and only those do |
| CryptoCompareWs.PriceTakesPriority | packages/sources/cryptocompare-test/src/endpoint/crypto-ws.ts:61-74 | a message that is both a price update and an `INVALID_SUB` yields the price result |
| CryptoCompareWs.ZeroPriceForwarded | packages/sources/cryptocompare-test/src/endpoint/crypto-ws.ts:61-73 | the price test is presence, not truthiness: a `PRICE` of 0 is forwarded |
| CryptoCompareWs.SubscribeMessage | packages/sources/cryptocompare-test/src/endpoint/crypto-ws.ts:95-97 | the subscribe frame has exactly the keys `action` and `subs`, `action` is `SubAdd`, `subs` is the one string `5~CCCAGG~BASE~QUOTE`, and for `~`-free symbols that string splits on `~` into `5`, `CCCAGG`, base, quote, so the decoder's fields 2 and 3 are the pair |
| CryptoCompareWs.UnsubscribeMessage | packages/sources/cryptocompare-test/src/endpoint/crypto-ws.ts:98-100 | the unsubscribe frame is the subscribe frame for the same pair with `action` set to `SubRemove` |
| CryptoCompareWs.BuildersShareSubs | packages/sources/cryptocompare-test/src/endpoint/crypto-ws.ts:95-100 | subscribe and unsubscribe carry the same `subs` and differ in `action` (`SubAdd` vs `SubRemove`) |
| CryptoCompareWs.SubRoundTrip | packages/sources/cryptocompare-test/src/endpoint/crypto-ws.ts:75-96 | for `~`-free symbols the subscription string splits into `5`, `CCCAGG`, base, quote |
| CryptoCompareWs.InvalidSubRoundTrip | packages/sources/cryptocompare-test/src/endpoint/crypto-ws.ts:74-96 | for `~`-free symbols, an `INVALID_SUB` whose `PARAMETER` is a subscription this adapter built yields one 400 error keyed by exactly that (base, quote) |
| CryptoCompareWs.PriceForPair | packages/sources/cryptocompare-test/src/endpoint/crypto-ws.ts:61-73 | a price update whose `FROMSYMBOL` and `TOSYMBOL` name a pair, whatever other fields it carries, yields one result keyed by that pair with `PRICE` passed through |
| CryptoCompareWs.EthUsdPriceExample | packages/sources/cryptocompare-test/src/endpoint/crypto-ws.ts:61-73 | the ETH/USD price 1595.50 yields one ETH/USD result of 1595.50 |
| CryptoCompareWs.EthXyzInvalidSubExample | packages/sources/cryptocompare-test/src/endpoint/crypto-ws.ts:74-90 | `INVALID_SUB` for `5~CCCAGG~ETH~XYZ` yields one 400 error for ETH/XYZ |

## Left out

- `JSON.parse` of inbound frames and `JSON.stringify` of outbound frames: messages are parsed objects, outbound frames are JSON values (key order is not modelled). Frames that are not JSON, or whose JSON is not an object, are not modelled.
- `new Date(message.timestamp).getTime()` (ncfx `crypto.ts` line 103): date parsing is a library call; the result carries the raw `timestamp` field it is applied to.
- Floating point: prices are `real`s that are only passed through or compared with zero; NaN cannot come out of `JSON.parse`, and infinities from overflowing literals are not represented.
- The `WebSocketTransport` itself: connection objects, event dispatch, the URL built from `WS_API_ENDPOINT` and the API key, reconnection, and what the framework does with an `undefined` or thrown `message` outcome.
- Subscription bookkeeping (idempotent subscribe and unsubscribe, double close): it belongs to the external framework, not to these files.
- Logging, apart from the string conversions of the NCFX informational debug line, which are modelled. The CryptoCompare handler hands the message object itself to the logger, and the logger is assumed not to throw.
- Strings are sequences of Unicode characters, while JavaScript strings are UTF-16 code units: a lone surrogate from a JSON `\ud800` escape cannot be represented. Splitting on the ASCII `/` and `~` is the same under either reading.
- NcfxCrypto.OpenSteps: the credentials are strings; an unset `API_USERNAME` or `API_PASSWORD`, which `JSON.stringify` would drop from the login frame, is not modelled.
- The other adapters (the on-chain index allocation call, the HTTP/WS router, the CoinMarketCap endpoint), configuration, logging redaction and the integration tests are not part of this model.
