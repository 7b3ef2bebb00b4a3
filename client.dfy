/**
 The Bitstamp realtime client: the websocket client that turns protocol
 callbacks into queued events, and the client that pulls them off the
 queue one at a time and routes them.
 */
module BitstampClient {
  import opened Wrappers
  import opened Events
  import Lifecycle
  import LifecycleProperties

  /** The websocket client. Its worker thread calls the callbacks below; each
      one appends to the queue the dispatching client reads. */
  class WSClient {
    var queue: seq<Event>
    /** The channels subscribed to, in order. */
    var channels: seq<string>
    /** Whether `stopClient` has been called on the connection. */
    var stopRequested: bool

    constructor ()
      ensures queue == [] && channels == [] && !stopRequested
    {
      queue, channels, stopRequested := [], [], false;
    }

    /** `onDisconnectionDetected`: shut the connection down (errors are only
        logged) and tell the consumer. */
    method OnDisconnectionDetected()
      modifies this
      ensures queue == old(queue) + [Event(ON_DISCONNECTED, NoData)]
      ensures channels == old(channels) && stopRequested
    {
      stopRequested := true;
      queue := queue + [Event(ON_DISCONNECTED, NoData)];
    }

    /** `onConnectionEstablished`: subscribe to the trade and order book
        channels, then tell the consumer. */
    method OnConnectionEstablished()
      modifies this
      ensures channels == old(channels) + ["live_trades", "order_book"]
      ensures queue == old(queue) + [Event(ON_CONNECTED, NoData)]
      ensures stopRequested == old(stopRequested)
    {
      channels := channels + ["live_trades"];
      channels := channels + ["order_book"];
      queue := queue + [Event(ON_CONNECTED, NoData)];
    }

    /** `onTrade`. */
    method OnTrade(trade: Trade)
      modifies this
      ensures queue == old(queue) + [Event(ON_TRADE, TradeData(trade))]
      ensures channels == old(channels) && stopRequested == old(stopRequested)
    {
      queue := queue + [Event(ON_TRADE, TradeData(trade))];
    }

    /** `onOrderBookUpdate`. */
    method OnOrderBookUpdate(update: OrderBookUpdate)
      modifies this
      ensures queue == old(queue) + [Event(ON_ORDER_BOOK_UPDATE, OrderBookData(update))]
      ensures channels == old(channels) && stopRequested == old(stopRequested)
    {
      queue := queue + [Event(ON_ORDER_BOOK_UPDATE, OrderBookData(update))];
    }

    /** The worker thread's run (`startClient`): the websocket library makes
        the given protocol callbacks, in order, and then the thread exits. */
    method StartClient(callbacks: seq<Callback>)
      modifies this
      ensures queue == old(queue) + EventsOf(callbacks)
      ensures channels == old(channels) + ChannelsOf(callbacks)
      ensures stopRequested
          == (old(stopRequested) || exists i :: 0 <= i < |callbacks| && callbacks[i].DisconnectionDetected?)
    {
      var i := 0;
      while i < |callbacks|
        invariant 0 <= i <= |callbacks|
        invariant queue == old(queue) + EventsOf(callbacks[..i])
        invariant channels == old(channels) + ChannelsOf(callbacks[..i])
        invariant stopRequested
               == (old(stopRequested) || exists j :: 0 <= j < i && callbacks[j].DisconnectionDetected?)
      {
        CallbacksExtended(callbacks, i);
        Call(callbacks[i]);
        i := i + 1;
      }
      assert callbacks[..i] == callbacks;
    }

    /** The library invoking the callback that matches a protocol message. */
    method Call(c: Callback)
      modifies this
      ensures queue == old(queue) + [EventOf(c)]
      ensures channels == old(channels) + ChannelsFor(c)
      ensures stopRequested == (old(stopRequested) || c.DisconnectionDetected?)
    {
      match c {
        case TradeReceived(t) => OnTrade(t);
        case OrderBookUpdateReceived(u) => OnOrderBookUpdate(u);
        case ConnectionEstablished => OnConnectionEstablished();
        case DisconnectionDetected => OnDisconnectionDetected();
      }
    }

    /** The consumer's bounded wait on the queue: the oldest event, or None
        when nothing is queued (the wait times out). */
    method Get() returns (e: Option<Event>)
      modifies this
      ensures old(queue) == [] ==> e == None && queue == []
      ensures old(queue) != [] ==> e == Some(old(queue)[0]) && queue == old(queue)[1..]
      ensures channels == old(channels) && stopRequested == old(stopRequested)
    {
      if queue == [] {
        e := None;
      } else {
        e := Some(queue[0]);
        queue := queue[1..];
      }
    }
  }

  /** Ranks the methods of the dispatch / reconnect / initialize cycle: only
      a dispatch that lets disconnections through can start a reconnection. */
  function DispatchRank(filter: EventFilter): nat {
    if Admits(filter, ON_DISCONNECTED) then 5 else 0
  }

  /** The client the host engine polls. */
  class Client {
    var wsClient: WSClient?
    /** Whether a worker thread has been created (`__thread is not None`). */
    var hasThread: bool
    var initializationOk: Option<bool>
    var enableReconnection: bool
    var stopped: bool
    /** The payloads emitted to the trade subscribers, in order. */
    var trades: seq<Payload>
    /** The payloads emitted to the order book subscribers, in order. */
    var orderBookUpdates: seq<Payload>

    ghost predicate Valid()
      reads this
    {
      hasThread ==> wsClient != null
    }

    /** The client's fields and its websocket client's queue. */
    function Snapshot(): Lifecycle.ClientState
      reads this, wsClient
    {
      Lifecycle.ClientState(if wsClient == null then [] else wsClient.queue,
                            hasThread, initializationOk, enableReconnection, stopped,
                            trades, orderBookUpdates)
    }

    /** What the websocket client of `attempt` recorded of its foreign calls:
        its worker's subscriptions, and a stop request exactly when the worker
        detected a disconnection. A connection that failed made no call. */
    ghost predicate RecordsOf(attempt: Lifecycle.Attempt)
      reads this, wsClient
    {
      && wsClient != null
      && wsClient.channels == (if attempt.connectOk then ChannelsOf(attempt.callbacks) else [])
      && wsClient.stopRequested
         == (attempt.connectOk && exists i :: 0 <= i < |attempt.callbacks| && attempt.callbacks[i].DisconnectionDetected?)
    }

    constructor ()
      ensures Valid() && wsClient == null
      ensures Snapshot() == Lifecycle.Initial()
    {
      wsClient := null;
      hasThread := false;
      initializationOk := None;
      enableReconnection := false;
      stopped := false;
      trades, orderBookUpdates := [], [];
    }

    /** `__initializeClient`. Returns the recorded initialization result. */
    method InitializeClient(attempt: Lifecycle.Attempt) returns (result: Option<bool>)
      modifies this
      decreases 2, 0
      ensures Valid() && wsClient != null && fresh(wsClient)
      ensures RecordsOf(attempt)
      ensures Snapshot() == Lifecycle.Initialize(old(Snapshot()), attempt)
      ensures result == initializationOk
    {
      ghost var before := Snapshot();
      initializationOk := None;
      hasThread := false;
      wsClient := new WSClient();
      if attempt.connectOk {
        // The worker thread starts and makes its callbacks.
        hasThread := true;
        wsClient.StartClient(attempt.callbacks);

      } else {
        // connect() raised.
        initializationOk := Some(false);

      }
      assert Snapshot() == Lifecycle.Connect(before, attempt);
      AwaitInitialization();
      result := initializationOk;
    }

    /** The wait loop of `__initializeClient`: dispatch connected events
        only, while no result is recorded and the worker is alive. The worker
        is alive while it still has events to hand over. */
    method AwaitInitialization()
      requires Valid() && wsClient != null
      modifies this, wsClient
      decreases 1, 0
      ensures Valid() && wsClient == old(wsClient)
      ensures wsClient.channels == old(wsClient.channels) && wsClient.stopRequested == old(wsClient.stopRequested)
      ensures Snapshot() == Lifecycle.Wait(old(Snapshot()))
    {
      while initializationOk == None && wsClient.queue != []
        invariant Valid() && wsClient == old(wsClient)
        invariant wsClient.channels == old(wsClient.channels) && wsClient.stopRequested == old(wsClient.stopRequested)
        invariant Lifecycle.Wait(Snapshot()) == Lifecycle.Wait(old(Snapshot()))
        decreases |wsClient.queue|
      {
        ghost var current := Snapshot();
        var _ := DispatchImpl(ConnectedOnly(), []);
        LifecycleProperties.WaitStepIsFilteredDispatch(current);
      }
    }

    /** `__onConnected`. */
    method OnConnected()
      modifies this
      ensures Valid() == old(Valid()) && wsClient == old(wsClient)
      ensures Snapshot() == Lifecycle.OnConnected(old(Snapshot()))
    {
      initializationOk := Some(true);
    }

    /** `__onDisconnected`. `reconnects` are the attempts made before an
        external `stop()` ends the retries. */
    method OnDisconnected(reconnects: seq<Lifecycle.Attempt>)
      requires Valid()
      modifies this
      decreases 4, 0
      ensures Valid()
      ensures wsClient == old(wsClient) || (wsClient != null && fresh(wsClient))
      ensures wsClient != old(wsClient) ==> exists k :: 0 <= k < |reconnects| && RecordsOf(reconnects[k])
      ensures Snapshot() == Lifecycle.OnDisconnected(old(Snapshot()), reconnects)
    {
      if enableReconnection {
        Reconnect(reconnects);
      } else {
        stopped := true;
      }
    }

    /** The retry loop of `__onDisconnected`: initialize again until one
        attempt succeeds or the client is stopped. */
    method Reconnect(reconnects: seq<Lifecycle.Attempt>)
      requires Valid()
      modifies this
      decreases 3, 0
      ensures Valid()
      ensures wsClient == old(wsClient) || (wsClient != null && fresh(wsClient))
      ensures wsClient != old(wsClient) ==> exists k :: 0 <= k < |reconnects| && RecordsOf(reconnects[k])
      ensures Snapshot() == Lifecycle.Reconnect(old(Snapshot()), reconnects)
    {
      var initialized := false;
      var i := 0;
      while !stopped && !initialized
        invariant 0 <= i <= |reconnects|
        invariant Valid()
        invariant initialized ==> Snapshot() == Lifecycle.Reconnect(old(Snapshot()), reconnects)
        invariant !initialized ==>
                    Lifecycle.Reconnect(Snapshot(), reconnects[i..]) == Lifecycle.Reconnect(old(Snapshot()), reconnects)
        invariant wsClient == old(wsClient) || (wsClient != null && fresh(wsClient))
        invariant wsClient != old(wsClient) ==> 0 < i && RecordsOf(reconnects[i - 1])
        decreases |reconnects| - i, if stopped then 0 else 1
      {
        if i == |reconnects| {
          // The external stop() that ends the retries.
          stopped := true;
        } else {
          assert reconnects[i..][1..] == reconnects[i + 1..];
          var result := InitializeClient(reconnects[i]);
          initialized := result == Some(true);
          i := i + 1;
        }
      }
    }

    /** `__dispatchImpl`. `reconnects` answers a reconnection, should routing
        a disconnection start one. Calling it before `start` raises in the
        source, as there is no websocket client yet. */
    method DispatchImpl(filter: EventFilter, reconnects: seq<Lifecycle.Attempt>) returns (processed: bool)
      requires Valid() && wsClient != null
      modifies this, wsClient
      decreases DispatchRank(filter), 0
      ensures Valid() && wsClient != null
      ensures wsClient == old(wsClient) || fresh(wsClient)
      ensures !Admits(filter, ON_DISCONNECTED) ==> wsClient == old(wsClient)
      ensures wsClient != old(wsClient) ==> old(wsClient.queue) != [] && old(wsClient.queue)[0].kind == ON_DISCONNECTED
      ensures wsClient != old(wsClient) ==> exists k :: 0 <= k < |reconnects| && RecordsOf(reconnects[k])
      ensures old(wsClient).channels == old(wsClient.channels) && old(wsClient).stopRequested == old(wsClient.stopRequested)
      ensures Lifecycle.Dispatch(old(Snapshot()), filter, reconnects) == Lifecycle.Dispatched(Snapshot(), processed)
    {
      var popped := wsClient.Get();
      if popped.None? {
        return false;
      }
      var e := popped.value;
      if !Admits(filter, e.kind) {
        return false;
      }
      processed := true;
      if e.kind == ON_TRADE {
        trades := trades + [e.data];
      } else if e.kind == ON_ORDER_BOOK_UPDATE {
        orderBookUpdates := orderBookUpdates + [e.data];
      } else if e.kind == ON_CONNECTED {
        OnConnected();
      } else if e.kind == ON_DISCONNECTED {
        OnDisconnected(reconnects);
      } else {
        processed := false;
      }
    }

    /** `start`: `Fail(AlreadyRunning)` and `Fail(InitializationFailed)`
        stand for the two exceptions it raises. */
    method Start(attempt: Lifecycle.Attempt) returns (outcome: Lifecycle.Outcome)
      requires Valid()
      modifies this
      ensures Valid()
      ensures wsClient == old(wsClient) || (wsClient != null && fresh(wsClient))
      ensures !old(hasThread) ==> wsClient != null && fresh(wsClient)
      ensures old(hasThread) ==> wsClient == old(wsClient)
      ensures !old(hasThread) ==> RecordsOf(attempt)
      ensures Lifecycle.Start(old(Snapshot()), attempt) == Lifecycle.Started(Snapshot(), outcome)
    {
      if hasThread {
        return Lifecycle.Fail(Lifecycle.AlreadyRunning);
      }
      var result := InitializeClient(attempt);
      if result != Some(true) {
        stopped := true;
        return Lifecycle.Fail(Lifecycle.InitializationFailed);
      }
      outcome := Lifecycle.Pass;
    }

    /** `stop`: never fails. `threadAlive` answers `is_alive()` on the worker. */
    method Stop(threadAlive: bool)
      requires Valid()
      modifies this, wsClient
      ensures Valid() && wsClient == old(wsClient)
      ensures Snapshot() == Lifecycle.Stop(old(Snapshot()))
      ensures wsClient != null ==> wsClient.channels == old(wsClient.channels)
      ensures wsClient != null ==> wsClient.stopRequested == (old(wsClient.stopRequested) || (hasThread && threadAlive))
    {
      stopped := true;
      if hasThread && threadAlive {
        wsClient.stopRequested := true;
      }
    }

    /** `eof`: no more events will be dispatched. */
    function Eof(): (r: bool)
      reads this
      ensures r <==> Snapshot().stopped
    {
      stopped
    }

    /** `dispatch`: the unfiltered dispatch the host engine calls. */
    method Dispatch(reconnects: seq<Lifecycle.Attempt>) returns (processed: bool)
      requires Valid() && wsClient != null
      modifies this, wsClient
      ensures Valid() && wsClient != null
      ensures wsClient == old(wsClient) || fresh(wsClient)
      ensures wsClient != old(wsClient) ==> old(wsClient.queue) != [] && old(wsClient.queue)[0].kind == ON_DISCONNECTED
      ensures wsClient != old(wsClient) ==> exists k :: 0 <= k < |reconnects| && RecordsOf(reconnects[k])
      ensures old(wsClient).channels == old(wsClient.channels) && old(wsClient).stopRequested == old(wsClient.stopRequested)
      ensures Lifecycle.Dispatch(old(Snapshot()), None, reconnects) == Lifecycle.Dispatched(Snapshot(), processed)
    {
      processed := DispatchImpl(None, reconnects);
    }

    /** `peekDateTime`: a realtime source has no next timestamp to offer. */
    function PeekDateTime(): (r: Option<int>)
      ensures r == None
    {
      None
    }
  }

  /** A session as the host engine drives it: a new client starts on a
      connection whose worker reports it established and then two trades; the
      dispatches hand the trades over in order until the queue runs dry, and
      after `stop` the client is at its end. */
  method TwoTradeSession(t1: Trade, t2: Trade, threadAlive: bool)
    returns (c: Client, outcome: Lifecycle.Outcome, first: bool, second: bool, third: bool)
    ensures outcome == Lifecycle.Pass
    ensures first && second && !third
    ensures c.trades == [TradeData(t1), TradeData(t2)] && c.orderBookUpdates == []
    ensures c.Eof()
    ensures c.wsClient != null && c.wsClient.channels == ["live_trades", "order_book"]
    ensures c.wsClient.stopRequested == threadAlive
  {
    c := new Client();
    ghost var ts := [t1, t2];
    var callbacks := [ConnectionEstablished, TradeReceived(t1), TradeReceived(t2)];
    assert callbacks == [ConnectionEstablished] + LifecycleProperties.TradeCallbacks(ts);
    assert callbacks[0].ConnectionEstablished?;
    LifecycleProperties.InitializeOutcome(Lifecycle.Initial(), Lifecycle.Attempt(true, callbacks));
    LifecycleProperties.ConnectedThenTrades(ts);
    LifecycleProperties.ConnectedThenTradesChannels(ts);
    outcome := c.Start(Lifecycle.Attempt(true, callbacks));
    ghost var w := c.wsClient;
    assert w.channels == ["live_trades", "order_book"] && !w.stopRequested;
    ghost var started := c.Snapshot();
    assert started.queue == [Event(ON_TRADE, TradeData(t1)), Event(ON_TRADE, TradeData(t2))];
    first := c.Dispatch([]);
    assert c.wsClient == w;
    assert c.Snapshot() == started.(queue := started.queue[1..], trades := [TradeData(t1)]);
    second := c.Dispatch([]);
    assert c.wsClient == w;
    assert c.Snapshot() == started.(queue := [], trades := [TradeData(t1), TradeData(t2)]);
    third := c.Dispatch([]);
    assert c.wsClient == w && w.channels == ["live_trades", "order_book"] && !w.stopRequested;
    c.Stop(threadAlive);
  }
}
