# vyper-client-rs in Dafny

A verified model of the core of `vyper-client-rs`, the Rust client for the
Vyper trading-data API. The model covers:

- **errors.dfy** (`Errors`): the `VyperError` taxonomy.
  - the seven variants, with `websocket_error` and `From<&str>`;
  - the text each variant displays as;
  - proofs that this text names its variant and carries its payload, and that
    an API error's message and status can be read back out of it.
- **client.dfy** (`Client`): how the REST client `VyperClient::request`
  classifies a reply.
  - a transport failure becomes `HttpError`, and an undecodable body becomes
    `DeserializeError`;
  - a success status yields the envelope's `data`;
  - a failure status yields the error the status names, carrying the
    envelope's message;
  - the query list of `search_tokens`, and the extraction step of
    `get_token_holders`, including its `as i32` truncation.
- **types.dfy** (`Types`): the `APIResponse` envelope and
  `TokenPairsParams`.
  - `TokenPairsParams::into_iter` pushes one query pair per set filter, in
    field order, with the value rendered as Rust renders it;
  - `Default` sets nothing;
  - lemmas show that every pair can be looked up and read back (integers,
    booleans, comma-joined lists), that keys come out in field order with no
    repeats, and that the number of pairs equals the number of set fields.
- **subscriptions.dfy** (`Subscriptions`): the subscribe and unsubscribe
  frames of the websocket protocol, as the compact JSON `serde_json` writes
  for them, with a reader for those frames that is proved to give every
  message back.
- **websocket.dfy** (`WebSocket`): the `VyperWebsocketClient` session.
  - It is a class over one abstract `WebSocketConnection`, also a class.
  - Its operations are `connect`, `subscribe`/`unsubscribe`, `listen`,
    `disconnect`, `ping` and `set_message_handler`.
  - The `listen` loop is proved against `ListenRun`, a function of the frames
    the connection will deliver. Lemmas about `ListenRun` say:
    - when the loop ends, and with which result;
    - what it leaves unread;
    - which frames reach the handler, in which order.
- **primitives.dfy**, **json.dfy** and **querylists.dfy**: the shared
  vocabulary.
  - primitives.dfy: bounded integers, decimal text, join and split;
  - json.dfy: `serde_json::Value`;
  - querylists.dfy: query lists as sequences of key and value pairs.

Outside effects are parameters or nondeterministic choices:

- **HTTP exchange**: passed in as an `Exchange` value.
- **serde decoding steps**: passed in as function values (`decodeOk`,
  `decodeErr`, `decodeHolders`, `Codec`).
- **`f64` parsing**: passed in as a function value (`parseFloat`).
- **Transport outcomes**: the success or failure of handshakes, sends and
  closes is chosen nondeterministically.
- **Incoming frames**: the frames the peer will send are a field of the
  connection.

The ghost fields `handshakes`, `sent`, `closes` and `deliveries` record
what went over the wire and which values reached the handler.

## Model

| member | source | states |
|---|---|---|
| Errors.Detail | src/errors.rs:5-31 | what each `#[error]` format prints after its variant's prefix: the payload, for `ApiError` followed by " (Status: c)"; `RateLimitError` and `WebsocketError` print their message only. `ApiDisplayRoundTrip` and `DisplayDetermines` state its properties |
| Errors.Display | src/errors.rs:3-32 | the displayed text is the variant's fixed prefix followed by `Detail`; `DisplayKind` and `DisplayDetermines` state that it names its variant and determines the displayed payload |
| Errors.WebsocketErrorOf | src/errors.rs:34-42 | `websocket_error` builds a `WebsocketError` carrying exactly the given message, status code and connection info |
| Errors.FromStr | src/errors.rs:44-52 | a `&str` becomes a websocket error with that message and no status code or connection info; it displays as "Websocket error: " followed by the text |
| Errors.ApiDisplayRoundTrip | src/errors.rs:23-24 | an `ApiError` displays as "API error: m (Status: c)", and the message and the status code can be parsed back from that text |
| Errors.DisplayKind | src/errors.rs:3-32 | every display starts with the fixed prefix of its variant, and that prefix identifies the variant |
| Errors.DisplayDetermines | src/errors.rs:3-32 | two errors display alike iff they have the same variant and the same message or cause (and, for `ApiError`, the same status); `retry_after`, `status_code` and `connection_info` are not displayed |
| Client.RequestUrl | src/client.rs:32 | the request URL is the base URL followed by the endpoint, with nothing between them |
| Client.RetryAfter | src/client.rs:55-57 | the retry delay is present iff the `Retry-After` header is present, is visible ASCII and parses as a float; it is then that float |
| Client.StatusError | src/client.rs:51-61 | for a non-2xx status the error carries the envelope's message, and its variant is exactly the one the status names: 401 Authentication, 429 RateLimit (with the given retry delay), 500-599 Server, any other status Api (keeping the status) |
| Client.Respond | src/client.rs:41-61 | the result of `request` for what came back is `Ok` iff a 2xx reply's body decodes, and then it is the envelope's `data`; `RespondSuccess`, `RespondFailureStatus`, `RespondUndecodable` and `RespondErrorKinds` state the error cases |
| Client.RespondSuccess | src/client.rs:46-48 | on a 2xx status the result is `Ok` iff the body decodes as an envelope; `Ok` holds the envelope's `data`, and otherwise the result is `DeserializeError` with the decoder's message |
| Client.RespondFailureStatus | src/client.rs:49-61 | on a non-2xx status with a decodable body the result is always an error with the envelope's message. The variant is: 401 Authentication, 429 RateLimit (with the parsed `Retry-After`), 500-599 Server, any other status Api (keeping the status). Each of these is an iff |
| Client.RespondUndecodable | src/client.rs:41-50 | a transport failure gives `HttpError`; a body that does not decode gives `DeserializeError`, whatever the status |
| Client.RespondErrorKinds | src/client.rs:41-61 | `request` never produces a websocket error, and produces `HttpError` exactly when the transport failed |
| Client.SearchTokensParams | src/client.rs:155-160 | the query list is `criteria` first; it holds `chainID` as the decimal chain id exactly when one is given, and has one or two pairs accordingly |
| Client.HoldersOf | src/client.rs:85-96 | the result is `Ok` iff the `holders` entry decodes, and then holds the decoded holders. The total is `total_holders` cut to 32 bits: congruent modulo 2^32, and equal when it fits in an `i32`. A decode failure gives `DeserializeError` with the decoder's message |
| Client.HoldersOfTestReply | src/client.rs:320-351 | the reply in the client's test (one holder, `total_holders` 1000) gives that holder and a total of 1000 |
| Json.AsInt64 | src/client.rs:93 | `as_i64` yields a value iff the JSON value is an integer within the signed 64-bit range, and the value is that integer |
| Primitives.WrapInt32 | src/client.rs:93 | `as i32` keeps the value modulo 2^32 and leaves values in the `i32` range unchanged |
| Types.Default | src/types.rs:448-476 | no filter set; `DefaultEmpty` states it and its empty query list |
| Types.QueryPairs | src/types.rs:368-445 | the specification of `into_iter`: per field in declaration order, the key and rendered value of a set field; `QueryPairsLookup`, `QueryPairsCount` and `QueryPairsOrdered` state its properties |
| Types.PushIfSet | src/types.rs:371-373 | a pair is appended exactly when the field is set, and the list is otherwise unchanged |
| Types.IntoIter | src/types.rs:368-445 | the method's result equals `QueryPairs(p)`: for each of the 24 fields in declaration order, one pair of its key and rendered value when the field is set |
| Types.QueryPairsLookup | src/types.rs:368-445 | looking up any field's key gives exactly that field's rendered value, and nothing when the field is unset |
| Types.QueryPairsCount | src/types.rs:368-445 | the number of pairs equals the number of set fields |
| Types.QueryPairsOrdered | src/types.rs:368-445 | every pair is the key and rendered value of a set field; keys come out in field order, and no key repeats |
| Types.ChainIdsReadBack | src/types.rs:380-382 | a non-empty `chainIds` is rendered so that splitting it at the commas and parsing each piece gives the ids back |
| Types.TokenTypesReadBack | src/types.rs:431-433 | a non-empty `tokenTypes` whose entries contain no comma is rendered so that splitting it at the commas gives the list back |
| Types.TextFieldsVerbatim | src/types.rs:392-424 | `interval` and `sorting` are passed on verbatim (and are absent when unset) |
| Types.IntFieldReadBack | src/types.rs:374-379 | every integer field is written in decimal, and its text parses back to the same number |
| Types.BoolFieldReadBack | src/types.rs:371-373 | every boolean field is written as `true`/`false`, and its text parses back to the same value |
| Types.ChainAndPageQuery | src/client.rs:699-705 | the test's parameters `{chain_ids: [1], page: 1}` serialise to `chainIds=1`, `page=1` |
| Types.DefaultEmpty | src/types.rs:448-476 | the default sets no field and serialises to the empty query list |
| Primitives.IntStringRoundTrip | src/types.rs:374-376 | `i32::to_string` parses back to the same integer |
| Primitives.BoolStringRoundTrip | src/types.rs:371-373 | `bool::to_string` parses back to the same boolean |
| Primitives.IntListRoundTrip | src/types.rs:380-382 | ids joined with "," split and parse back to the same ids |
| Primitives.SplitJoin | src/types.rs:431-433 | strings joined with "," split back to the same strings when none contains a comma |
| Subscriptions.NamesDistinct | src/websocket.rs:29-43 | the lowercase action names and the PascalCase subscription-type names are pairwise distinct |
| Subscriptions.EscapeRoundTrip | src/websocket.rs:132 | reading an escaped JSON string literal back gives the original string, for every string, and stops at its closing quote whatever follows |
| Subscriptions.EscapePlain | src/websocket.rs:132 | text without quotes, backslashes or control characters is written unchanged |
| Subscriptions.EncodeSingleType | src/websocket.rs:45-49 | a token subscription with one type is written as `{"action":"<action>","types":["<Type>"]}`; the frame the unit tests subscribe with is an instance |
| Subscriptions.Encode | src/websocket.rs:45-55 | the compact JSON `serde_json::to_string` writes at src/websocket.rs:132: the action, then the types or the wallets as an array of string literals; `DecodeEncode` states that it is read back exactly |
| Subscriptions.EncodeWallets | src/websocket.rs:51-55 | for any list of addresses, the frame is the action name under `"action"` and then, under `"wallets"`, every address as a JSON string, comma-joined in the order given; an address without quotes, backslashes or control characters is written verbatim between quotes |
| Subscriptions.DecodeEncode | src/websocket.rs:45-55 | reading an encoded frame back gives the message: the action and the full list of types or wallets, for every action and every list, of both shapes |
| Subscriptions.EncodeInjective | src/websocket.rs:45-55 | different subscription messages are sent as different frames |
| WebSocket.FeedPath | src/websocket.rs:19-27 | each feed's path segment reads back as that feed; `FeedPathRoundTrip` adds that only the three segments name a feed |
| WebSocket.ConnectUrl | src/websocket.rs:88 | the URL starts with the base URL and is as long as base, "/", path, "?apiKey=" and key together; `ConnectUrlRoundTrip` and `ConnectUrlInjective` state that it determines feed and key |
| WebSocket.FeedPathRoundTrip | src/websocket.rs:19-27 | each feed's path segment names that feed back, and only the three segments name a feed, so the segments are distinct |
| WebSocket.ConnectUrlRoundTrip | src/websocket.rs:88 | the connect URL can be parsed back into the feed and the API key it was built from |
| WebSocket.ConnectUrlInjective | src/websocket.rs:88 | different feeds or different keys give different connect URLs |
| WebSocket.Convert | src/websocket.rs:175-194 | with no feed the result is the "Feed type is not set" error. The wallet feed decodes with the chain-action decoder; the token and migration feeds decode with the token-pair decoder. Any other error is a `DeserializeError` |
| WebSocket.ConvertByFeed | src/websocket.rs:184-193 | the token and migration feeds convert alike; each feed ignores the other decoder |
| WebSocket.TransportFailure | src/websocket.rs:92-96 | a transport error is re-wrapped as a websocket error whose message is the original error's display text, with no status code |
| WebSocket.ListenRun | src/websocket.rs:158-172 | the specification of the `listen` loop over the frames the connection will deliver: it never hands on more values than frames remain to consume; `ListenResult`, `ListenReadsToError`, `ListenAborts`, `ListenHandsOnEach`, `ListenSkipsUnconvertible` and `ListenWithoutFeed` state when it stops, with what, and what it hands on |
| WebSocket.ListenResult | src/websocket.rs:158-172 | `listen` ends with `Ok` iff every frame before the first receive error is JSON; otherwise it ends with a `DeserializeError` |
| WebSocket.ListenAborts | src/websocket.rs:158-159 | a run that ends with an error stopped at a frame `k` before the first receive error that is not JSON: the error is `DeserializeError` with that frame's parse detail, the frames after `k` stay unread, and the values handed on are those of the run over the frames before `k`, which ends with `Ok` |
| WebSocket.ListenReadsToError | src/websocket.rs:158-172 | a run that ends with `Ok` has consumed every frame up to and including the first receive error, and nothing after it |
| WebSocket.ListenWithoutFeed | src/websocket.rs:160-164 | with no feed set no frame is ever handed to the handler |
| WebSocket.ListenHandsOnEach | src/websocket.rs:158-170 | when every frame converts, each frame before the first receive error is handed on once, in order, as its converted value |
| WebSocket.ListenSkipsUnconvertible | src/websocket.rs:162-164 | a JSON frame that fails conversion is skipped: the run continues as if it had not arrived |
| WebSocket.DeliveriesEach | src/websocket.rs:166-169 | an installed handler is called once per value, in order |
| WebSocket.DeliveriesAppend | src/websocket.rs:166-169 | the handler calls for two runs of values are the calls for the first run followed by those for the second |
| WebSocket.Connection.Receive | src/websocket.rs:274-298 | `receive` yields the next pending frame and drops it; when none are left it yields the "WebSocket stream ended" error. Nothing else changes |
| WebSocket.Connection.Send | src/websocket.rs:257-272 | a successful send records the frame once; a failed send records nothing |
| WebSocket.Connection.Connect | src/websocket.rs:247-255 | a successful handshake records the URL; a failed one changes nothing |
| WebSocket.Connection.Close | src/websocket.rs:308-324 | a successful close is counted; a failed one changes nothing |
| WebSocket.VyperWebsocketClient.constructor | src/websocket.rs:76-84 | a new client has the default base URL, the given key, no connection, no feed and no handler |
| WebSocket.VyperWebsocketClient.Connect | src/websocket.rs:86-110 | it reuses the held connection or opens a new one and performs the handshake on the URL for the feed and key. On success the feed is recorded, and a newly opened connection has sent nothing and was never closed. On failure the connection and the feed are unchanged, as are a held connection's pending frames and handshake log, and the error is the transport error re-wrapped with the URL as connection info. "Connection held iff feed set" is preserved |
| WebSocket.VyperWebsocketClient.Subscribe | src/websocket.rs:112-140 | not connected gives "Not connected"; a feed mismatch gives "Feed type mismatch" and sends nothing; otherwise the encoded message is sent once, or a failed send is reported re-wrapped and nothing is sent |
| WebSocket.VyperWebsocketClient.Unsubscribe | src/websocket.rs:142-144 | it has exactly the contract of `Subscribe` |
| WebSocket.VyperWebsocketClient.Listen | src/websocket.rs:146-173 | not connected gives "Not connected". Otherwise the result, the frames left unread and the handler calls are those of `ListenRun` on the pending frames, and nothing else changes |
| WebSocket.VyperWebsocketClient.Disconnect | src/websocket.rs:196-211 | with no connection it succeeds and clears the feed. A successful close is counted and forgets the connection and the feed. A failed close is reported re-wrapped and leaves the connection and the feed as they were |
| WebSocket.VyperWebsocketClient.Ping | src/websocket.rs:213-223 | with a connection it sends the text "ping" once, or reports the failed send re-wrapped; without one it succeeds and does nothing |
| WebSocket.VyperWebsocketClient.SetMessageHandler | src/websocket.rs:225-230 | the new handler replaces any earlier one, and nothing else changes |

## Left out

- **The real transport.** `WebSocketImpl`, `connect_async` and tungstenite are left out. The outcome of each handshake, send and close is a nondeterministic choice.
  - The frames a connection will deliver are a field, chosen at each successful handshake.
  - A non-text message and a read error are modelled as a receive error, which is how `listen` sees them.
- **Finite streams only.** The pending frames are a finite sequence, so the model's `listen` always returns once they run out. The real `listen` returns only when `receive` fails and never returns on an endless stream. The contracts describe every finite run.
- **Async and locking.** Tokio, the `Arc<Mutex<...>>` wrappers and concurrent callers are not modelled; each call runs to completion alone.
- **serde record decoding.** The decoding steps are function values. The records they decode into (`TokenPair`, `ChainAction`, `TokenHolder`, ...) are not modelled field by field.
- WebSocket.Convert: the `from_value` and `to_value` steps for `ChainAction`/`TokenPair` are collapsed into one decoder per record type.
- Subscriptions.Encode: is assumed to succeed. `serde_json::to_string` of a subscription message cannot fail for these types, so `subscribe` sends the encoding directly. It also accepts any `Serialize` message, and only the two subscription message types are modelled.
- **Floating point.** `f64` values are kept as their display text. `Retry-After` parsing is a parameter.
- **HTTP.** Headers, timeouts and reqwest's URL encoding of query lists are not modelled. The exchange is an input.
  - The per-endpoint accessors (`get_chain_ids`, `get_token_ath`, ...) only call `request` with a fixed endpoint and query list. They are not modelled one by one.
- Client.HoldersOf: requires `holders` to be present, and `total_holders` to be a 64-bit integer whenever the holders decode. Without these, the map index or the `unwrap` at src/client.rs:92-93 panics. The panic is not modelled as a result.
- WebSocket.VyperWebsocketClient.Subscribe: requires a feed whenever a connection is held. This is the `unwrap` at src/websocket.rs:124. The client's own operations keep this true (`Valid`).
- WebSocket.VyperWebsocketClient.Unsubscribe: requires a feed whenever a connection is held, for the same `unwrap`, which `unsubscribe` reaches by delegating to the same code (src/websocket.rs:142-144).
- **Handlers.** A handler is an identity. Each call is recorded in the ghost `deliveries` log. What the closure does is not modelled.

Where the unit tests disagree with the code, the model follows the code:

- src/websocket.rs:357 expects the connect URL to contain `TokenEvents`. The code writes the path segment `token-events` (src/websocket.rs:22).
- src/client.rs:710 expects a market id that the test's own reply does not contain.
