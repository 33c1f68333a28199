# TradeExecution: a verified model of a Deribit JSON-RPC client core

This project models the protocol client of a trading client for the Deribit
derivatives exchange. The `TradeExecution` class talks JSON-RPC 2.0 over a
WebSocket. It has four pieces of state:

- a process-wide request-id counter;
- an authentication flag;
- a map from symbol to market-data subscriber;
- the transport, seen only as the messages sent on it and the messages waiting to be read.

Every request operation does the same thing. It takes a fresh id from the
counter, builds an envelope `{jsonrpc: "2.0", id, method, params}`, sends it,
and returns the next message read. There are two exceptions to this pattern:

- The private operations (buy, sell, cancel, edit, get_positions,
  get_open_orders_by_currency) first check the flag. While it is false they
  fail before anything is built or sent.
- `authenticate` looks at its reply. A reply with a `result` member sets the
  flag and yields that member. Any other reply fails.

Market-data pushes go to the subscriber registered for their `symbol`.

Files, one module each:

- `json.dfy`: JSON values. A `double` is kept as its bit pattern, because prices
  and amounts are only copied.
- `outcomes.dfy`: the thrown exceptions as an `Error` value, plus `Result` and `Option`.
- `envelope.dfy`: the `Request` datatype, one constructor per operation. It has
  `Build`, which makes the envelope, and `Decode`, which reads it back. Both
  directions are proved: decoding a built envelope gives back its id and
  request, and every envelope `Decode` accepts is the one `Build` makes.
- `request_ids.dfy`: the static counter. It is a single `Counter` object that
  every client holds a reference to. A ghost set records every id handed out.
- `transport.dfy`: the WebSocket as a `sent` log and an `inbound` queue.
- `client_model.dfy`: the client as a pure state machine (`State`, `Call`,
  `Dispatch`, `Subscribe`, `Run`). It also holds the lemmas about whole runs:
  authentication is permanent, a locked client is inert, and ids run 1, 2, 3, …
- `trade_execution.dfy`: the `TradeExecution` class, with one method per source
  operation. Each method's postcondition equates the new state and the result
  with the pure model applied to the old state. It also holds the side
  selection done by the command surface.

Where the code differs from a plain reading of its design, the model follows the code:

- `handleMarketData` does not always swallow errors. It converts
  `data["symbol"]` to `std::string`. A symbol that is present but is not a JSON
  string therefore throws a type error out of the handler. The model returns
  `Err(SymbolTypeError(..))` in that case. A missing symbol, or a symbol with
  no subscriber, is only logged, and the model returns `Ok` with nothing
  delivered.
- `getPositions` writes `{"params", {}}` inside an initializer list, which
  nlohmann::json turns into `"params": null`. It is not an empty object, and the
  model sends `Null`.
- `authenticate` does not look for an `error` member. Any reply without
  `result` (an error reply, a push, a non-object) counts as a failed
  authentication. The failure carries the whole reply.
- Replies are not matched to requests by id. Each operation returns whatever
  message the transport yields next.
- The counter is `static`. Ids are unique across all clients in the process,
  not per client.

## Model

| member | source | states |
|---|---|---|
| Envelope.Build | trade_execution.cpp:28-37 | every envelope carries, as its integer "id", the id it was built with |
| Envelope.DecodeBuild | trade_execution.cpp:26-226 | reading back the envelope of any operation gives exactly its id and request: version "2.0", the fixed method name, and exactly the listed params (grant_type "client_credentials", type "limit", contracts = new_amount, null params for get_positions) |
| Envelope.BuildDecode | trade_execution.cpp:26-226 | every envelope that decodes to an id and a request is exactly the envelope built from them, so no other shape passes for a client request |
| Envelope.ParamsDecode | trade_execution.cpp:26-226 | a method name and params that decode to a request are exactly that request's method name and params |
| Envelope.BuildInjective | trade_execution.cpp:26-226 | two envelopes are equal only if they were built from the same id and the same request |
| Envelope.PrivateMethodNames | trade_execution.cpp:105-226 | the operations that check authentication are exactly those whose method name starts with "private/"; the rest start with "public/" |
| Envelope.BuyAndSellDifferOnlyInMethod | trade_execution.cpp:105-149 | a buy and a sell with the same arguments have identical envelopes apart from the method, "private/buy" versus "private/sell", and both send type "limit" |
| Envelope.ModifyEchoesAmount | trade_execution.cpp:169-181 | an edit sends the new amount under both "new_amount" and "contracts" |
| RequestIds.Counter.constructor | trade_execution.cpp:7 | the counter starts at 1 with no id handed out |
| RequestIds.Counter.FetchAndIncrement | trade_execution.cpp:16-18 | post-increment: returns the current value, advances by exactly one, and the id was never handed out before |
| Transport.Receive | trade_execution.cpp:39 | a read yields the oldest waiting message and removes it; with none waiting it fails with a transport error |
| Transport.WebSocket.SendMessage | trade_execution.cpp:38 | sending appends the message to the sent log and touches nothing else |
| Transport.WebSocket.ReadMessage | trade_execution.cpp:39 | reading takes the head of the inbound queue as Receive says, and leaves the sent log alone |
| ClientModel.Call | trade_execution.cpp:20-226 | a request fails with AuthRequired exactly when it is private and the client is unauthenticated, and then nothing changes; otherwise exactly one envelope with the next id is sent and the counter advances by one; the flag ends true exactly when it was true or this was a successful authenticate; subscribers and deliveries never change |
| ClientModel.AuthenticateOutcome | trade_execution.cpp:26-52 | authenticate sends its envelope and reads one reply; a reply with "result" yields that member and sets the flag; any other reply fails with the reply and leaves the flag as it was |
| ClientModel.RepliesVerbatim | trade_execution.cpp:54-226 | every request except authenticate that passes the gate returns the next message read, unchanged |
| ClientModel.ReadFailureAfterSend | trade_execution.cpp:54-69 | when the read fails, the envelope has already been sent and its id is used up |
| ClientModel.RouteOf | trade_execution.cpp:228-239 | a push is delivered exactly when its "symbol" is a string with a registered subscriber, and then to that subscriber; a missing symbol and a non-string symbol are told apart |
| ClientModel.Dispatch | trade_execution.cpp:228-239 | handling a push changes only the delivery record; a string symbol with a registered subscriber delivers the full payload to that subscriber once; every other push (no symbol, unregistered symbol, non-string symbol) changes nothing; it fails only for a non-string symbol |
| ClientModel.Subscribe | trade_execution.cpp:251-253 | registering sets the entry for that symbol and leaves every other entry and all other state unchanged |
| ClientModel.SubscribeLastWriteWins | trade_execution.cpp:251-253 | of two registrations for one symbol, the second wins |
| ClientModel.PushReachesLatestSubscriber | trade_execution.cpp:228-253 | after a registration for a symbol, a push for that symbol is delivered once, to that subscriber, with the full payload |
| ClientModel.UnroutablePushIsHarmless | trade_execution.cpp:233-238 | a push with no symbol, or for an unregistered symbol, changes nothing and does not fail |
| ClientModel.AuthenticationIsPermanent | trade_execution.cpp:41-43 | once authenticated, a client stays authenticated after any run of operations |
| ClientModel.OnlyAuthenticateSetsFlag | trade_execution.cpp:42 | a run with no authenticate leaves the flag as it was |
| ClientModel.LockedClientIsInert | trade_execution.cpp:20-24 | any run of private requests on an unauthenticated client sends nothing, uses no id and changes nothing |
| ClientModel.StepKeepsNumbering | trade_execution.cpp:16-18 | one operation keeps the sent envelopes numbered consecutively up to the counter |
| ClientModel.RunKeepsNumbering | trade_execution.cpp:16-18 | any run of operations keeps the sent envelopes numbered consecutively up to the counter |
| ClientModel.FreshClientIds | trade_execution.cpp:7-18 | from a fresh start the k-th envelope sent carries id k: no gaps, no repeats, and the counter stands at one past the number sent |
| TradeExecution.TradeExecution.constructor | trade_execution.h:40-43 | a new client holds the given transport and the shared counter, is unauthenticated and has no subscribers |
| TradeExecution.TradeExecution.GetNextRequestId | trade_execution.cpp:16-18 | returns the shared counter's value and advances it by one; the id was never handed out to any client |
| TradeExecution.TradeExecution.EnsureAuthenticated | trade_execution.cpp:20-24 | succeeds exactly when the client is authenticated, and otherwise fails with AuthRequired |
| TradeExecution.TradeExecution.SendAndRead | trade_execution.cpp:56-63 | takes a fresh id, sends the envelope and reads one message, as Exchange says |
| TradeExecution.TradeExecution.PrivateCall | trade_execution.cpp:105-120 | a private request checks the flag before building anything, as Call says |
| TradeExecution.TradeExecution.Authenticate | trade_execution.cpp:26-52 | new state and result are those of Call for public/auth |
| TradeExecution.TradeExecution.GetInstruments | trade_execution.cpp:54-69 | new state and result are those of Call for public/get_instruments |
| TradeExecution.TradeExecution.GetTicker | trade_execution.cpp:71-86 | new state and result are those of Call for public/ticker |
| TradeExecution.TradeExecution.GetOrderBook | trade_execution.cpp:88-103 | new state and result are those of Call for public/get_order_book |
| TradeExecution.TradeExecution.PlaceBuyOrder | trade_execution.cpp:105-126 | new state and result are those of Call for private/buy; the client's own fields are not modified |
| TradeExecution.TradeExecution.PlaceSellOrder | trade_execution.cpp:128-149 | new state and result are those of Call for private/sell |
| TradeExecution.TradeExecution.CancelOrder | trade_execution.cpp:151-167 | new state and result are those of Call for private/cancel |
| TradeExecution.TradeExecution.ModifyOrder | trade_execution.cpp:169-190 | new state and result are those of Call for private/edit |
| TradeExecution.TradeExecution.GetPositions | trade_execution.cpp:192-208 | new state and result are those of Call for private/get_positions |
| TradeExecution.TradeExecution.ViewOpenOrders | trade_execution.cpp:210-226 | new state and result are those of Call for private/get_open_orders_by_currency |
| TradeExecution.TradeExecution.HandleMarketData | trade_execution.cpp:228-239 | new state and result are those of Dispatch |
| TradeExecution.TradeExecution.OnMarketDataReceived | trade_execution.cpp:241-245 | has exactly the effect of HandleMarketData |
| TradeExecution.TradeExecution.AddMarketDataSubscriber | trade_execution.cpp:251-253 | new state is that of Subscribe |
| TradeExecution.SelectOrder | deribit_trader.cpp:93-99 | side "buy" selects a buy and "sell" a sell, with the given instrument, amount and price; any other side is InvalidArgument |
| TradeExecution.PlaceOrder | deribit_trader.cpp:93-99 | an invalid side fails with InvalidArgument and changes nothing; a valid one behaves as Call for the selected order |
| TradeExecution.ClientsShareTheCounter | trade_execution.h:41 | two clients sharing the counter send consecutive ids: the second client's call behaves as Call on the counter value the first one left behind |

## Left out

- Transport: connect, TLS, close and send failures are not modelled. Sending always succeeds. The real `readMessage` blocks until a message arrives. The model's read fails with `TransportError` when nothing is queued.
- `websocket_handler.h`, `latency_module.h` and `api_credentials.h` are not part of this model.
- Logging to `std::cerr` and the latency measurement in `onMarketDataReceived` are left out. They do not affect control flow or results.
- `broadcastDummy` is left out because it only prints. The destructor's `clear()` is left out because it has no observable effect.
- The counter, flag and map have no atomicity or locking in the model. The model is sequential.
- RequestIds.Counter.FetchAndIncrement: does not model the 32-bit wrap-around of `std::atomic<int>` after 2^31 - 1 ids, because ids are unbounded integers here. Uniqueness holds only while fewer than 2^32 ids have been issued.
- Subscriber callbacks are opaque tokens. Invoking one is recorded as a `Delivery`. What a callback does, or an exception it throws, is outside the model, and so is an empty `std::function`.
- Doubles are opaque bit patterns. No arithmetic or NaN comparison semantics are modelled.
- The interactive menu in `deribit_trader.cpp` is left out, apart from the choice of buy or sell by side.
