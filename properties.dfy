/** What the lifecycle and dispatch functions promise. */
module LifecycleProperties {
  import opened Wrappers
  import opened Events
  import opened Lifecycle

  /** A dispatch on an empty queue (a timed-out read) processes nothing and
      changes nothing. */
  lemma EmptyQueueDispatch(s: ClientState, filter: EventFilter, reconnects: seq<Attempt>)
    requires s.queue == []
    ensures Dispatch(s, filter, reconnects) == Dispatched(s, false)
  {
  }

  /** An event whose kind the filter refuses is consumed all the same: it
      leaves the queue, reaches no handler and no subscriber, and the call
      reports that nothing was processed. */
  lemma FilteredEventIsDropped(s: ClientState, kinds: set<int>, reconnects: seq<Attempt>)
    requires s.queue != [] && s.queue[0].kind !in kinds
    ensures Dispatch(s, Some(kinds), reconnects) == Dispatched(s.(queue := s.queue[1..]), false)
  {
  }

  /** A dispatch reports success exactly when it popped an event of one of
      the four known kinds that the filter admits. */
  lemma ProcessedIff(s: ClientState, filter: EventFilter, reconnects: seq<Attempt>)
    ensures Dispatch(s, filter, reconnects).processed
        <==> s.queue != [] && Admits(filter, s.queue[0].kind) && IsKnownKind(s.queue[0].kind)
  {
  }

  /** Routing a connected event records a successful initialization and
      touches nothing else but the queue. */
  lemma ConnectedEventInitializes(s: ClientState, filter: EventFilter, reconnects: seq<Attempt>)
    requires s.queue != [] && s.queue[0].kind == ON_CONNECTED && Admits(filter, ON_CONNECTED)
    ensures Dispatch(s, filter, reconnects)
         == Dispatched(s.(queue := s.queue[1..], initializationOk := Some(true)), true)
  {
  }

  /** An event of an unknown kind is consumed, reported as not processed,
      and changes no flag and no subscriber list. */
  lemma UnknownKindIsIgnored(s: ClientState, filter: EventFilter, reconnects: seq<Attempt>)
    requires s.queue != [] && !IsKnownKind(s.queue[0].kind)
    ensures Dispatch(s, filter, reconnects) == Dispatched(s.(queue := s.queue[1..]), false)
  {
  }

  /** Without reconnection, a routed disconnection stops the client for good:
      `eof()` holds from then on. */
  lemma DisconnectionStopsWithoutReconnection(s: ClientState, filter: EventFilter, reconnects: seq<Attempt>)
    requires !s.enableReconnection
    requires s.queue != [] && s.queue[0].kind == ON_DISCONNECTED && Admits(filter, ON_DISCONNECTED)
    ensures Dispatch(s, filter, reconnects)
         == Dispatched(s.(queue := s.queue[1..], stopped := true), true)
  {
  }

  /** Once stopped, a client stays stopped whatever it dispatches. */
  lemma DispatchKeepsStopped(s: ClientState, filter: EventFilter, reconnects: seq<Attempt>)
    requires s.stopped
    ensures Dispatch(s, filter, reconnects).state.stopped
  {
  }

  /** A step of the wait loop is a dispatch with the connected-only filter:
      it cannot start a reconnection or reach a subscriber. */
  lemma WaitStepIsFilteredDispatch(s: ClientState)
    requires s.queue != []
    ensures Dispatch(s, ConnectedOnly(), []).state == WaitStep(s)
  {
  }

  /** The wait loop consumes the queue up to and including the first
      connected event and records success, or drains it all; either way the
      events before that point reach no subscriber and no flag but the
      initialization result changes. */
  lemma {:induction false} WaitOutcome(s: ClientState)
    requires s.initializationOk == None
    ensures var i := ConnectedIndex(s.queue);
            Wait(s) == if i < |s.queue| then s.(queue := s.queue[i + 1..], initializationOk := Some(true))
                       else s.(queue := [])
    decreases |s.queue|
  {
    if s.queue != [] {
      var next := WaitStep(s);
      if s.queue[0].kind != ON_CONNECTED {
        WaitOutcome(next);
        var i := ConnectedIndex(s.queue[1..]);
        if i < |s.queue[1..]| {
          assert s.queue[1..][i + 1..] == s.queue[i + 2..];
        }
      }
    }
  }

  /** A connected event is among the events of `cs` exactly when `cs`
      establishes a connection. */
  lemma ConnectedIndexOfCallbacks(cs: seq<Callback>)
    ensures ConnectedIndex(EventsOf(cs)) < |cs|
        <==> exists i :: 0 <= i < |cs| && cs[i].ConnectionEstablished?
  {
  }

  /** `__initializeClient` leaves a result of False when connect fails, True
      when the worker reports an established connection and None when the
      worker exits without one; it never emits, and never touches `stopped`. */
  lemma InitializeOutcome(s: ClientState, a: Attempt)
    ensures var r := Initialize(s, a);
            && r.initializationOk == (if !a.connectOk then Some(false) else if Succeeds(a) then Some(true) else None)
            && r.hasThread == a.connectOk
            && r.stopped == s.stopped
            && r.enableReconnection == s.enableReconnection
            && r.trades == s.trades
            && r.orderBookUpdates == s.orderBookUpdates
            && r.queue == (if Succeeds(a) then EventsOf(a.callbacks)[ConnectedIndex(EventsOf(a.callbacks)) + 1..] else [])
  {
    if a.connectOk {
      WaitOutcome(Connect(s, a));
      ConnectedIndexOfCallbacks(a.callbacks);
    }
  }

  predicate AnySucceeds(attempts: seq<Attempt>) {
    exists i :: 0 <= i < |attempts| && Succeeds(attempts[i])
  }

  /** The reconnection loop of a running client ends connected exactly when
      one of its attempts succeeds, and stopped exactly when none does; it
      never emits to subscribers. */
  lemma {:induction false} ReconnectOutcome(s: ClientState, reconnects: seq<Attempt>)
    requires !s.stopped
    ensures var r := Reconnect(s, reconnects);
            && (r.stopped <==> !AnySucceeds(reconnects))
            && (!r.stopped ==> r.initializationOk == Some(true) && r.hasThread)
            && r.trades == s.trades
            && r.orderBookUpdates == s.orderBookUpdates
    decreases |reconnects|
  {
    if reconnects != [] {
      var s1 := Initialize(s, reconnects[0]);
      InitializeOutcome(s, reconnects[0]);
      if !Succeeds(reconnects[0]) {
        ReconnectOutcome(s1, reconnects[1..]);
        assert AnySucceeds(reconnects) <==> AnySucceeds(reconnects[1..]) by {
          if AnySucceeds(reconnects) {
            var i :| 0 <= i < |reconnects| && Succeeds(reconnects[i]);
            assert reconnects[1..][i - 1] == reconnects[i];
          }
          if AnySucceeds(reconnects[1..]) {
            var i :| 0 <= i < |reconnects[1..]| && Succeeds(reconnects[1..][i]);
            assert reconnects[i + 1] == reconnects[1..][i];
          }
        }
      } else {
        assert Succeeds(reconnects[0]);
      }
    }
  }

  /** `start` on a client that already has a worker thread fails with
      "Already running" and changes nothing. */
  lemma StartWhileRunning(s: ClientState, a: Attempt)
    requires s.hasThread
    ensures Start(s, a) == Started(s, Fail(AlreadyRunning))
  {
  }

  /** `start` on a client without a thread returns exactly when the attempt
      initializes the client; when it raises "Initialization failed" the
      client is stopped, so `eof()` holds. */
  lemma StartOutcome(s: ClientState, a: Attempt)
    requires !s.hasThread
    ensures var r := Start(s, a);
            && (r.outcome == Pass <==> Succeeds(a))
            && (r.outcome != Pass ==> r.outcome == Fail(InitializationFailed) && r.state.stopped)
            && (r.outcome == Pass ==> r.state.initializationOk == Some(true) && r.state.stopped == s.stopped)
            && (r.outcome == Pass ==> r.state.hasThread)
  {
    InitializeOutcome(s, a);
  }

  /** Starting again without a stop fails with "Already running" and leaves
      the started client as it was. */
  lemma StartTwiceFails(s: ClientState, a: Attempt, b: Attempt)
    requires !s.hasThread
    requires Start(s, a).outcome == Pass
    ensures Start(Start(s, a).state, b) == Started(Start(s, a).state, Fail(AlreadyRunning))
  {
    StartOutcome(s, a);
  }

  /** `stop` leaves the client stopped, and a second call changes nothing. */
  lemma StopIdempotent(s: ClientState)
    ensures Stop(s).stopped
    ensures Stop(Stop(s)) == Stop(s)
  {
  }

  /** Only trade and order book events. */
  predicate MarketDataOnly(q: seq<Event>) {
    forall i :: 0 <= i < |q| ==> q[i].kind == ON_TRADE || q[i].kind == ON_ORDER_BOOK_UPDATE
  }

  /** The payloads of the events of the given kind, in queue order. */
  function PayloadsOfKind(q: seq<Event>, kind: int): seq<Payload> {
    if q == [] then []
    else (if q[0].kind == kind then [q[0].data] else []) + PayloadsOfKind(q[1..], kind)
  }

  /** One unfiltered dispatch of a trade or order book event hands its
      payload to the matching subscribers and leaves every flag alone. */
  lemma MarketDataStep(s: ClientState, reconnects: seq<Attempt>)
    requires s.queue != [] && (s.queue[0].kind == ON_TRADE || s.queue[0].kind == ON_ORDER_BOOK_UPDATE)
    ensures Dispatch(s, None, reconnects)
         == Dispatched(s.(queue := s.queue[1..],
                          trades := s.trades + PayloadsOfKind(s.queue[..1], ON_TRADE),
                          orderBookUpdates := s.orderBookUpdates + PayloadsOfKind(s.queue[..1], ON_ORDER_BOOK_UPDATE)),
                       true)
  {
    assert s.queue[..1][1..] == [];
  }

  /** What draining a queue of market data leaves: an empty queue and every
      payload appended to its subscribers' list, in queue order. */
  function Delivered(s: ClientState): ClientState {
    s.(queue := [],
       trades := s.trades + PayloadsOfKind(s.queue, ON_TRADE),
       orderBookUpdates := s.orderBookUpdates + PayloadsOfKind(s.queue, ON_ORDER_BOOK_UPDATE))
  }

  /** Delivering the head event first and then the rest delivers the same. */
  lemma DeliveredAfterStep(s: ClientState, reconnects: seq<Attempt>)
    requires s.queue != [] && (s.queue[0].kind == ON_TRADE || s.queue[0].kind == ON_ORDER_BOOK_UPDATE)
    ensures Delivered(Dispatch(s, None, reconnects).state) == Delivered(s)
  {
    var q := s.queue;
    MarketDataStep(s, reconnects);
    SplitPayloads(q, ON_TRADE);
    SplitPayloads(q, ON_ORDER_BOOK_UPDATE);
    var tradesHead, booksHead := PayloadsOfKind(q[..1], ON_TRADE), PayloadsOfKind(q[..1], ON_ORDER_BOOK_UPDATE);
    var tradesTail, booksTail := PayloadsOfKind(q[1..], ON_TRADE), PayloadsOfKind(q[1..], ON_ORDER_BOOK_UPDATE);
    assert (s.trades + tradesHead) + tradesTail == s.trades + (tradesHead + tradesTail);
    assert (s.orderBookUpdates + booksHead) + booksTail == s.orderBookUpdates + (booksHead + booksTail);
  }

  /** FIFO delivery: N unfiltered dispatches over N queued trade and order
      book events each report success, hand every payload to its
      subscribers in queue order, and leave every flag alone. */
  lemma {:induction false} MarketDataDeliveredInOrder(s: ClientState, reconnects: seq<Attempt>)
    requires MarketDataOnly(s.queue)
    ensures var r := DispatchTimes(s, |s.queue|, reconnects);
            && r.0 == Delivered(s)
            && (forall i :: 0 <= i < |s.queue| ==> r.1[i])
    decreases |s.queue|
  {
    if s.queue != [] {
      var q := s.queue;
      var d := Dispatch(s, None, reconnects);
      MarketDataStep(s, reconnects);
      DeliveredAfterStep(s, reconnects);
      var next := d.state;
      assert MarketDataOnly(next.queue) by {
        forall i | 0 <= i < |next.queue| ensures next.queue[i].kind == ON_TRADE || next.queue[i].kind == ON_ORDER_BOOK_UPDATE {
          assert next.queue[i] == q[i + 1];
        }
      }
      MarketDataDeliveredInOrder(next, reconnects);
      var rest := DispatchTimes(next, |q| - 1, reconnects);
      assert DispatchTimes(s, |q|, reconnects) == (rest.0, [d.processed] + rest.1);
    }
  }

  /** Once the market data is drained, one more dispatch finds the queue
      empty and reports failure. */
  lemma DrainedQueueReportsNothing(s: ClientState, reconnects: seq<Attempt>)
    ensures Delivered(s).queue == []
    ensures Dispatch(Delivered(s), None, reconnects) == Dispatched(Delivered(s), false)
  {
  }

  /** `eof` as written reports only the stopped flag: a stopped client with a
      trade still queued reports eof, yet the next dispatch hands that trade
      over and returns True. */
  lemma StoppedClientStillDispatches(t: Trade)
    ensures var s := Stop(ClientState([Event(ON_TRADE, TradeData(t))], true, Some(true), false, false, [], []));
            && s.stopped
            && !Exhausted(s)
            && Dispatch(s, None, []) == Dispatched(s.(queue := [], trades := [TradeData(t)]), true)
  {
  }

  /** Once exhausted, no dispatch, filtered or not, processes anything or
      changes the state: nothing more is dispatched. */
  lemma ExhaustedDispatchesNothing(s: ClientState, filter: EventFilter, reconnects: seq<Attempt>)
    requires Exhausted(s)
    ensures Dispatch(s, filter, reconnects) == Dispatched(s, false)
  {
  }

  /** Stopping and then dispatching the market data still queued reaches the
      exhausted state, every event being handed over on the way. */
  lemma {:induction false} StopThenDrainExhausts(s: ClientState, reconnects: seq<Attempt>)
    requires MarketDataOnly(s.queue)
    ensures var r := DispatchTimes(Stop(s), |s.queue|, reconnects);
            && Exhausted(r.0)
            && r.0.trades == s.trades + PayloadsOfKind(s.queue, ON_TRADE)
            && r.0.orderBookUpdates == s.orderBookUpdates + PayloadsOfKind(s.queue, ON_ORDER_BOOK_UPDATE)
            && (forall i :: 0 <= i < |s.queue| ==> r.1[i])
  {
    MarketDataDeliveredInOrder(Stop(s), reconnects);
  }

  lemma SplitPayloads(q: seq<Event>, kind: int)
    requires q != []
    ensures PayloadsOfKind(q, kind) == PayloadsOfKind(q[..1], kind) + PayloadsOfKind(q[1..], kind)
  {
    assert q[..1][1..] == [];
  }

  /** The worker's `onTrade` callbacks for the trades of `ts`, in order. */
  function TradeCallbacks(ts: seq<Trade>): seq<Callback> {
    seq(|ts|, i requires 0 <= i < |ts| => TradeReceived(ts[i]))
  }

  /** The trade events that `onTrade` enqueues for each trade of `ts`. */
  function TradeEvents(ts: seq<Trade>): (q: seq<Event>)
    ensures |q| == |ts|
    ensures forall i :: 0 <= i < |ts| ==> q[i] == Event(ON_TRADE, TradeData(ts[i]))
  {
    EventsOf(TradeCallbacks(ts))
  }

  /** Trades t1..tN enqueued through `onTrade` on an empty queue reach the
      trade subscribers as t1..tN after N dispatches, each returning True. */
  lemma {:induction false} TradesDeliveredInOrder(s: ClientState, ts: seq<Trade>, reconnects: seq<Attempt>)
    requires s.queue == TradeEvents(ts)
    ensures var r := DispatchTimes(s, |ts|, reconnects);
            && r.0 == s.(queue := [], trades := s.trades + seq(|ts|, i requires 0 <= i < |ts| => TradeData(ts[i])))
            && (forall i :: 0 <= i < |ts| ==> r.1[i])
            && !Dispatch(r.0, None, reconnects).processed
  {
    MarketDataDeliveredInOrder(s, reconnects);
    DrainedQueueReportsNothing(s, reconnects);
    TradePayloads(ts);
    NoBookPayloads(ts);
  }

  /** A session end to end: the worker reports an established connection and
      then trades t1..tN; `start` succeeds and leaves exactly those trades
      queued, N dispatches hand them to the trade subscribers in order, `eof`
      stays where it was until `stop` sets it. */
  lemma StartThenTradesThenStop(s: ClientState, ts: seq<Trade>, reconnects: seq<Attempt>)
    requires !s.hasThread
    ensures var cs := [ConnectionEstablished] + TradeCallbacks(ts);
            var st := Start(s, Attempt(true, cs));
            var r := DispatchTimes(st.state, |ts|, reconnects);
            && st.outcome == Pass
            && st.state.queue == TradeEvents(ts)
            && r.0.trades == s.trades + seq(|ts|, i requires 0 <= i < |ts| => TradeData(ts[i]))
            && r.0.orderBookUpdates == s.orderBookUpdates
            && (forall i :: 0 <= i < |ts| ==> r.1[i])
            && r.0.stopped == s.stopped
            && Stop(r.0).stopped
  {
    var cs := [ConnectionEstablished] + TradeCallbacks(ts);
    var a := Attempt(true, cs);
    assert cs[0].ConnectionEstablished?;
    InitializeOutcome(s, a);
    ConnectedThenTrades(ts);
    TradesDeliveredInOrder(Start(s, a).state, ts, reconnects);
  }

  /** A worker that reports a connection and then only trades subscribes to
      the two channels once and never detects a disconnection. */
  lemma {:induction false} ConnectedThenTradesChannels(ts: seq<Trade>)
    ensures ChannelsOf([ConnectionEstablished] + TradeCallbacks(ts)) == ["live_trades", "order_book"]
    ensures forall i :: 0 <= i < |ts| + 1 ==> !([ConnectionEstablished] + TradeCallbacks(ts))[i].DisconnectionDetected?
    decreases |ts|
  {
    var cs := [ConnectionEstablished] + TradeCallbacks(ts);
    if ts != [] {
      var init := ts[..|ts| - 1];
      ConnectedThenTradesChannels(init);
      assert cs[..|cs| - 1] == [ConnectionEstablished] + TradeCallbacks(init);
    } else {
      assert cs == [ConnectionEstablished];
      assert cs[..0] == [];
    }
  }

  /** A connection reported first, then trades: the trade events follow the
      connected event. */
  lemma ConnectedThenTrades(ts: seq<Trade>)
    ensures var q := EventsOf([ConnectionEstablished] + TradeCallbacks(ts));
            ConnectedIndex(q) == 0 && q[1..] == TradeEvents(ts)
  {
    var q := EventsOf([ConnectionEstablished] + TradeCallbacks(ts));
    assert forall i :: 0 <= i < |ts| ==> q[1..][i] == TradeEvents(ts)[i];
  }

  lemma {:induction false} TradePayloads(ts: seq<Trade>)
    ensures PayloadsOfKind(TradeEvents(ts), ON_TRADE) == seq(|ts|, i requires 0 <= i < |ts| => TradeData(ts[i]))
  {
    if ts != [] {
      TradePayloads(ts[1..]);
      assert TradeEvents(ts)[1..] == TradeEvents(ts[1..]);
    }
  }

  lemma {:induction false} NoBookPayloads(ts: seq<Trade>)
    ensures PayloadsOfKind(TradeEvents(ts), ON_ORDER_BOOK_UPDATE) == []
  {
    if ts != [] {
      NoBookPayloads(ts[1..]);
      assert TradeEvents(ts)[1..] == TradeEvents(ts[1..]);
    }
  }
}
