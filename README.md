# Bitstamp realtime client, modelled in Dafny

This project models the core of PyAlgoTrade's Bitstamp client
(`pyalgotrade/bitstamp/client.py`). The client turns the exchange's push-based
websocket feed into an event source that the host engine polls.

- The websocket client's protocol callbacks each append one tagged
  `(kind, payload)` event to a FIFO queue. The kinds are trade = 1,
  order book update = 2, connected = 3 and disconnected = 4.
- Each `dispatch` pops at most one event. A kind filter may drop the event
  after it is popped. Otherwise the event is routed: trades and order book
  updates go to their subscribers, and the two lifecycle events update the
  client's flags. A disconnection either stops the client or starts the
  reconnection loop.
- `start`, `stop`, `eof` and the initialization wait loop work on the
  `stopped`, `initializationOk`, thread and `enableReconnection` state.
- `_getNonce` generates the nonces for signed REST calls.

Layout:

- `events.dfy` (module `Events`): the event kinds, payloads and events; the
  callbacks that create events; the dispatch filter.
- `lifecycle.dfy` (module `Lifecycle`): the client's state as a value
  (`ClientState`). Dispatch, connect, wait, reconnect, start and stop are
  functions on it.
- `properties.dfy` (module `LifecycleProperties`): lemmas about those
  functions.
- `client.dfy` (module `BitstampClient`): the classes `WSClient` and `Client`.
  `queue`, `wsClient`, `initializationOk`, `enableReconnection` and `stopped`
  are the source's own fields. The others are stand-ins:
  - `hasThread` stands for `__thread is not None`;
  - `trades` and `orderBookUpdates` record what reaches the two
    `observer.Event` notification points;
  - `channels` and `stopRequested` record the calls made into the websocket
    library (`subscribeChannel`, `stopClient`).

  Each method is proved to change the client's fields and its websocket
  client's queue exactly as the matching `Lifecycle` function says
  (`Snapshot() == Lifecycle.X(old(Snapshot()), …)`). Its other clauses say
  what happens to the websocket library's records.
- `http.dfy` (module `Http`): `HTTPClient` and its nonce, and the order type
  accessors.
- `wrappers.dfy` (module `Wrappers`): `Option`, which stands for Python's
  `None` or a value.

The environment is passed in as explicit values:

- An `Attempt` says whether `connect()` returned. It also lists the protocol
  callbacks that the worker thread then makes before it exits.
- A `threadAlive` flag answers `is_alive()` in `stop`.
- A list of attempts answers the reconnection loop. If none of them succeeds,
  an external `stop()` ends the loop.

## Model

| member | source | states |
|---|---|---|
| `BitstampClient.WSClient.constructor` | pyalgotrade/bitstamp/client.py:48-50 | A new websocket client starts with an empty queue, no subscriptions and no stop request |
| `BitstampClient.WSClient.OnDisconnectionDetected` | pyalgotrade/bitstamp/client.py:62-68 | Records the request to stop the connection and appends exactly one disconnected event with no payload |
| `BitstampClient.WSClient.OnConnectionEstablished` | pyalgotrade/bitstamp/client.py:71-75 | Subscribes to "live_trades" and then "order_book", then appends exactly one connected event |
| `BitstampClient.WSClient.OnTrade` | pyalgotrade/bitstamp/client.py:87-88 | Appends exactly one trade event that carries the trade; nothing else changes |
| `BitstampClient.WSClient.OnOrderBookUpdate` | pyalgotrade/bitstamp/client.py:90-91 | Appends exactly one order book event that carries the update; nothing else changes |
| `BitstampClient.WSClient.Call` | pyalgotrade/bitstamp/client.py:62-91 | A protocol callback enqueues its event, adds its subscriptions and records a stop request only for a disconnection |
| `BitstampClient.WSClient.StartClient` | pyalgotrade/bitstamp/client.py:109-112 | The worker's run enqueues the events of its callbacks in callback order (FIFO). It subscribes twice per established connection and records a stop request exactly when a disconnection was detected |
| `BitstampClient.WSClient.Get` | pyalgotrade/bitstamp/client.py:158 | The queue read returns the oldest event and removes exactly it. On an empty queue it returns nothing (the timeout) and changes nothing |
| `BitstampClient.Client.constructor` | pyalgotrade/bitstamp/client.py:100-107 | A new client has no thread, no websocket client, no initialization result, reconnection disabled, is not stopped and has emitted nothing |
| `BitstampClient.Client.InitializeClient` | pyalgotrade/bitstamp/client.py:114-139 | Replaces the websocket client with a fresh one and changes the state as `Lifecycle.Initialize` says. The new websocket client records its worker's subscriptions, and a stop request exactly when the worker detected a disconnection. After a failed connect it records nothing. Returns the recorded initialization result |
| `BitstampClient.Client.AwaitInitialization` | pyalgotrade/bitstamp/client.py:131-133 | The wait loop dispatches with the connected-only filter until a result is recorded or the worker has nothing left. It ends in `Lifecycle.Wait` of the state it started from. It keeps the websocket client, whose subscriptions and stop request stay as they were |
| `BitstampClient.Client.OnConnected` | pyalgotrade/bitstamp/client.py:141-142 | Sets `initializationOk` to True and changes nothing else |
| `BitstampClient.Client.OnDisconnected` | pyalgotrade/bitstamp/client.py:144-153 | Stops the client when reconnection is disabled. Otherwise it retries initialization until one attempt succeeds or the client is stopped (`Lifecycle.OnDisconnected`). A websocket client it leaves behind is fresh, and it holds the records of one of the attempts: that worker's subscriptions and stop request |
| `BitstampClient.Client.Reconnect` | pyalgotrade/bitstamp/client.py:145-151 | The retry loop tries the attempts in order until one initializes the client or the client is stopped, and ends in `Lifecycle.Reconnect` of the state it started from. A websocket client it leaves behind is fresh and holds the records of one of the attempts |
| `BitstampClient.Client.DispatchImpl` | pyalgotrade/bitstamp/client.py:155-176 | Pops at most one event, applies the filter and routes the event. The new state and the result are those of `Lifecycle.Dispatch`. It never subscribes and never asks the connection to stop. Only a routed disconnection can replace the websocket client, and then only with a fresh one that holds the records of one of the reconnection attempts |
| `BitstampClient.Client.Start` | pyalgotrade/bitstamp/client.py:179-184 | The new state and the outcome, including the two failures "Already running" and "Initialization failed", are those of `Lifecycle.Start`. Without a thread it always leaves a fresh websocket client, even when it fails, so `dispatch` can follow. That client records the worker's subscriptions and stop request. With a thread it keeps the same websocket client |
| `BitstampClient.Client.Stop` | pyalgotrade/bitstamp/client.py:187-194 | Never fails. Sets `stopped` and changes nothing else of the client. Asks the connection to stop exactly when a thread exists and is alive. A second call gives the same state |
| `BitstampClient.Client.Eof` | pyalgotrade/bitstamp/client.py:202-203 | True exactly when the client is stopped, as the code is written (see Findings: events may still be queued) |
| `BitstampClient.Client.Dispatch` | pyalgotrade/bitstamp/client.py:206-207 | The public dispatch is the unfiltered `Lifecycle.Dispatch`. It keeps its websocket client, or replaces it only on a routed disconnection, with a fresh one that holds the records of one of the reconnection attempts, so the calls can be chained. It leaves the subscriptions and the stop request of the websocket client it started with as they were |
| `BitstampClient.Client.PeekDateTime` | pyalgotrade/bitstamp/client.py:209-211 | A realtime source never offers a next timestamp |
| `BitstampClient.TwoTradeSession` | pyalgotrade/bitstamp/client.py:179-207 | Through the classes alone: a new client starts on a worker that reports a connection and then two trades. Two dispatches return True and emit both trades in order, a third returns False, and after `stop` `eof` holds. The websocket client is still subscribed to the two channels, and it has been asked to stop exactly when the worker was alive at `stop` |
| `Events.EventOf` | pyalgotrade/bitstamp/client.py:43-46 | Each callback enqueues an event of a known kind: trades as kind 1 with the trade, order book updates as kind 2 with the update, connections as 3, disconnections as 4 |
| `Events.EventsOf` | pyalgotrade/bitstamp/client.py:62-91 | A run of callbacks enqueues one event per callback, in the same order |
| `Events.ConnectedOnly` | pyalgotrade/bitstamp/client.py:133 | The wait loop's filter admits the connected kind and nothing else |
| `Lifecycle.Initial` | pyalgotrade/bitstamp/client.py:100-107 | The state of a new client: no thread, no result, reconnection disabled, not stopped, nothing emitted. Its contract is the class constructor's `Snapshot() == Initial()` |
| `Lifecycle.Dispatch` | pyalgotrade/bitstamp/client.py:155-176 | On an empty queue nothing changes and the result is False. Otherwise the head event is consumed whether or not it is filtered out. Only a reconnection replaces the queue |
| `Lifecycle.OnConnected` | pyalgotrade/bitstamp/client.py:141-142 | Records a successful initialization and nothing else |
| `Lifecycle.OnDisconnected` | pyalgotrade/bitstamp/client.py:144-153 | Stops the client when reconnection is disabled, otherwise runs the retry loop. `DisconnectionStopsWithoutReconnection` and `ReconnectOutcome` state its outcome |
| `Lifecycle.Reconnect` | pyalgotrade/bitstamp/client.py:145-151 | Retries initialization attempt by attempt until one succeeds, or stops when they run out. `ReconnectOutcome` states its outcome |
| `Lifecycle.Initialize` | pyalgotrade/bitstamp/client.py:114-139 | Connect, then wait for a result. `InitializeOutcome` states its outcome |
| `Lifecycle.Connect` | pyalgotrade/bitstamp/client.py:115-129 | Before the wait loop, the queue is new and the thread exists exactly when `connect()` returned. The result is False when `connect()` raised and None otherwise. Flags and subscriber lists are untouched |
| `Lifecycle.Wait` | pyalgotrade/bitstamp/client.py:131-133 | The wait loop of initialization. `WaitOutcome` states where it ends |
| `Lifecycle.WaitStep` | pyalgotrade/bitstamp/client.py:133 | Each wait-loop dispatch consumes one event, so the loop ends |
| `Lifecycle.ConnectedIndex` | pyalgotrade/bitstamp/client.py:132-133 | Finds the first connected event in a queue (the queue's length when there is none) |
| `Lifecycle.Start` | pyalgotrade/bitstamp/client.py:179-184 | `start`'s two failures and its success. `StartWhileRunning` and `StartOutcome` state them |
| `Lifecycle.Stop` | pyalgotrade/bitstamp/client.py:187-194 | `stop` sets `stopped` and nothing else of the client. `StopIdempotent` states that it holds afterwards and that stopping twice changes nothing |
| `Lifecycle.Exhausted` | pyalgotrade/bitstamp/client.py:201-203 | The reading of `eof` that its comment documents: stopped, and nothing left to dispatch. `ExhaustedDispatchesNothing` and `StopThenDrainExhausts` state what it means |
| `LifecycleProperties.EmptyQueueDispatch` | pyalgotrade/bitstamp/client.py:155-176 | A dispatch on an empty queue (a read timeout) returns False and changes neither the queue, the flags nor the emitted lists |
| `LifecycleProperties.FilteredEventIsDropped` | pyalgotrade/bitstamp/client.py:158-160 | An event whose kind the filter refuses is removed from the queue and reaches no handler. The call returns False and the event is gone for good |
| `LifecycleProperties.ProcessedIff` | pyalgotrade/bitstamp/client.py:156-176 | Dispatch returns True exactly when it popped an admitted event of one of the four known kinds |
| `LifecycleProperties.ConnectedEventInitializes` | pyalgotrade/bitstamp/client.py:167-168 | An admitted connected event sets `initializationOk` to True and the call returns True |
| `LifecycleProperties.UnknownKindIsIgnored` | pyalgotrade/bitstamp/client.py:171-173 | An event of an unknown kind is consumed. The call returns False and no flag or subscriber list changes |
| `LifecycleProperties.DisconnectionStopsWithoutReconnection` | pyalgotrade/bitstamp/client.py:144-170 | With reconnection disabled, an admitted disconnection sets `stopped` (so `eof()` holds) and the call returns True |
| `LifecycleProperties.DispatchKeepsStopped` | pyalgotrade/bitstamp/client.py:144-170 | No dispatch clears `stopped` once it is set |
| `LifecycleProperties.WaitStepIsFilteredDispatch` | pyalgotrade/bitstamp/client.py:132-133 | A dispatch with the connected-only filter is exactly one step of the wait loop, so it can start no reconnection and reach no subscriber |
| `LifecycleProperties.WaitOutcome` | pyalgotrade/bitstamp/client.py:131-133 | The wait loop consumes the queue up to and including the first connected event and records success. If there is no connected event, it drains the queue and records nothing. The trades and disconnections it passes over are lost |
| `LifecycleProperties.ConnectedIndexOfCallbacks` | pyalgotrade/bitstamp/client.py:71-75 | The worker's events contain a connected event exactly when one of its callbacks established the connection |
| `LifecycleProperties.InitializeOutcome` | pyalgotrade/bitstamp/client.py:114-139 | Initialization returns False when connect fails, True when the worker reports a connection and None when the worker exits without one. The thread exists exactly when connect returned. `stopped` and the subscriber lists are untouched. Events queued after the first connected event stay queued for `dispatch`; otherwise the queue is drained |
| `LifecycleProperties.ReconnectOutcome` | pyalgotrade/bitstamp/client.py:144-151 | A running client's retry loop ends stopped exactly when no attempt succeeds. Otherwise it ends initialized with a thread. It emits nothing |
| `LifecycleProperties.StartWhileRunning` | pyalgotrade/bitstamp/client.py:179-181 | `start` with an existing thread fails with "Already running" and changes nothing |
| `LifecycleProperties.StartOutcome` | pyalgotrade/bitstamp/client.py:179-184 | Without a thread, `start` succeeds exactly when the attempt initializes the client, and then a worker thread exists. On failure it raises "Initialization failed" with `stopped` already set |
| `LifecycleProperties.StartTwiceFails` | pyalgotrade/bitstamp/client.py:179-184 | A second `start` after a successful one, without a `stop` in between, fails with "Already running" and changes nothing |
| `LifecycleProperties.StopIdempotent` | pyalgotrade/bitstamp/client.py:187-194 | After `stop` the client is stopped, and stopping again changes nothing |
| `LifecycleProperties.MarketDataStep` | pyalgotrade/bitstamp/client.py:162-166 | An unfiltered dispatch of a trade or order book event emits its payload to the matching subscribers only. It returns True and leaves the flags alone |
| `LifecycleProperties.DeliveredAfterStep` | pyalgotrade/bitstamp/client.py:158-166 | Delivering the head event and then the rest delivers the same as delivering the whole queue |
| `LifecycleProperties.MarketDataDeliveredInOrder` | pyalgotrade/bitstamp/client.py:155-166 | N unfiltered dispatches over N queued trade and order book events each return True. They emit every payload to its subscribers in queue order and empty the queue |
| `LifecycleProperties.DrainedQueueReportsNothing` | pyalgotrade/bitstamp/client.py:174-176 | Once the queue is drained, one more dispatch returns False and changes nothing |
| `LifecycleProperties.StoppedClientStillDispatches` | pyalgotrade/bitstamp/client.py:187-207 | A stopped client with a trade still queued reports `eof`, yet its next dispatch emits that trade and returns True |
| `LifecycleProperties.ExhaustedDispatchesNothing` | pyalgotrade/bitstamp/client.py:155-176 | Once stopped with an empty queue, no dispatch, filtered or not, processes anything or changes the state |
| `LifecycleProperties.StopThenDrainExhausts` | pyalgotrade/bitstamp/client.py:155-194 | After `stop`, N dispatches over N queued trade and order book events each return True, emit every payload in queue order and leave the client exhausted |
| `LifecycleProperties.TradeEvents` | pyalgotrade/bitstamp/client.py:87-88 | The events `onTrade` enqueues for t1..tN are trade events carrying t1..tN, in order |
| `LifecycleProperties.ConnectedThenTrades` | pyalgotrade/bitstamp/client.py:71-91 | When the worker reports a connection first and then trades, the connected event heads the queue and the trade events follow it in order |
| `LifecycleProperties.ConnectedThenTradesChannels` | pyalgotrade/bitstamp/client.py:62-91 | A worker that reports a connection and then only trades subscribes to "live_trades" and "order_book" once, and never asks the connection to stop |
| `LifecycleProperties.TradesDeliveredInOrder` | pyalgotrade/bitstamp/client.py:87-88 | After trades t1..tN are enqueued by `onTrade`, N dispatches return True and emit t1..tN to the trade subscribers in order. One more dispatch returns False |
| `LifecycleProperties.StartThenTradesThenStop` | pyalgotrade/bitstamp/client.py:179-207 | If the worker reports a connection and then trades t1..tN, `start` succeeds with exactly those trades queued. N dispatches emit them in order without touching `eof`, and `stop` then sets `eof` |
| `Http.IsSell` | pyalgotrade/bitstamp/client.py:263-267 | No order is both a sell and a buy |
| `Http.IsBuy` | pyalgotrade/bitstamp/client.py:263-264 | An order is a buy when its type code is 0. `IsSell` states that no order is both |
| `Http.NextNonce` | pyalgotrade/bitstamp/client.py:288-293 | The nonce is the clock reading, or that reading plus one exactly when the reading equals the previous nonce. It always differs from the previous nonce |
| `Http.NonceRepeatsWithinOneSecond` | pyalgotrade/bitstamp/client.py:288-293 | Three calls within one clock second give t, t+1, t, so the third nonce repeats the first |
| `Http.NextIncreasingNonce` | pyalgotrade/bitstamp/client.py:288-293 | Corrected nonce: never below the clock reading and always above the previous nonce |
| `Http.IncreasingNoncesStrictlyIncrease` | pyalgotrade/bitstamp/client.py:288-293 | Whatever the clock reads, the corrected nonces strictly increase, so none repeats |
| `Http.HTTPClient.constructor` | pyalgotrade/bitstamp/client.py:282-286 | A new HTTP client keeps its credentials and has no previous nonce |
| `Http.HTTPClient.GetNonce` | pyalgotrade/bitstamp/client.py:288-293 | Returns `NextNonce` of the previous nonce and the clock reading. The result differs from the previous nonce and becomes the new previous nonce |

## Left out

- Threads: `threading.Thread`, `is_alive`, `join` and the concurrency between the worker and the consumer are not modelled. The worker's events are taken as already queued when the consumer reads them. `join` is not modelled because it only blocks.
- The 10 ms bounded wait of the queue read is modelled as "the queue is empty".
- BitstampClient.Client.AwaitInitialization: the worker is treated as alive exactly while it still has queued events. This abstracts both directions of the race with `is_alive()`, which the source checks before each wait-loop dispatch. A worker that stays connected without ever reporting a connection keeps the source waiting forever, and the model does not cover that. A worker that reports a connection and then exits before the consumer pops the connected event leaves the result None in the source, so `start` raises "Initialization failed". `InitializeOutcome` and `StartOutcome` say that such an attempt succeeds.
- BitstampClient.Client.OnDisconnected: only finitely many attempts are modelled, followed by an external `stop()`. The source retries forever, and the endless case cannot be expressed. The 5 second `time.sleep` between attempts is left out because it is timing only.
- BitstampClient.Client.Reconnect: the retry loop that `OnDisconnected` runs, with the same finite list of attempts, ended by an external `stop()`.
- An exception from `threading.Thread(...).start()` is not modelled. Only `connect()` raising is.
- `enableReconnection` is a field, but the source never sets it to True. The reconnection path is still modelled and proved.
- BitstampClient.Client.DispatchImpl: requires a websocket client, because the source raises an uncaught `AttributeError` when `dispatch` runs before `start`. The pure `Lifecycle.Dispatch` cannot see this. `ClientState` has no websocket client, so it treats a never-started client as an empty queue, and `EmptyQueueDispatch` then reports a read timeout where the source crashes.
- The websocket library (`connect`, `startClient`, `stopClient`, `subscribeChannel`) is foreign code. Its calls are recorded only: the subscribed channel names and a stop-request flag. Protocol callbacks are replayed from the environment's list.
- `onOpened`, `onClosed`, `onSubscriptionError`, `onError` and `onUnknownEvent` do nothing or only log, and all logging is left out.
- `getTradeEvent` and `getOrderBookUpdateEvent` return `observer.Event` objects, and that module is not part of this model. Emission to subscribers is modelled as appending the payload to a list per notification point.
- `parse_datetime`, `AccountBalance` and the float and date accessors of `Order` are left out as float and `strptime` behaviour. `Order` keeps only its type code.
- `_buildQuery`, `_post`, `getAccountBalance`, `getOpenOrders`, `cancelOrder`, `buyLimit` and `sellLimit` are left out. They are HMAC signing, URL encoding, HTTP and JSON calls into foreign libraries, plus float rounding.
- The clock (`time.time()`) is a parameter of `GetNonce`, already truncated to whole seconds.

## Findings

| source | as written | input that shows it | evidently intended | confidence | as-written member | corrected member |
|---|---|---|---|---|---|---|
| pyalgotrade/bitstamp/client.py:288-293 | `_getNonce` compares the clock reading only with the last nonce, and adds one only when they are equal | three calls within the same clock second t return t, t+1, t, so the third nonce repeats the first | every nonce exceeds the previous one, as the exchange expects of successive signed requests: the larger of the reading and the previous nonce plus one | medium, not executed | `Http.NonceRepeatsWithinOneSecond` | `Http.NextIncreasingNonce` |
| pyalgotrade/bitstamp/client.py:201-203 | `eof` returns the stopped flag only; `stop` does not drain the queue and `dispatch` does not look at the flag | a stopped client with one trade still queued: `eof` is True, yet the next `dispatch` emits the trade and returns True | `eof` is True only when nothing more will be dispatched, as its comment says: stopped and the queue empty | low, not executed | `LifecycleProperties.StoppedClientStillDispatches` | `Lifecycle.Exhausted` |

`Client.Eof` keeps the code as written, since the host engine reads that
flag. `ExhaustedDispatchesNothing` and `StopThenDrainExhausts` prove the
documented meaning of the corrected reading.

`HTTPClient.GetNonce` keeps the code as written, since it is the modelled
operation. Nothing else in the model consumes nonces. `IncreasingNonces` and
the lemma `Http.IncreasingNoncesStrictlyIncrease` prove the intended property
of the corrected definition.
