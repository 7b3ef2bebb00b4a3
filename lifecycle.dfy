/**
 The connection lifecycle and dispatch routing of the Bitstamp client as
 functions on an abstract state. The methods of `BitstampClient.Client` are
 proved to change their object exactly as these functions say.

 The worker thread and the network are environment answers handed in as
 values: an `Attempt` says whether `connect()` returned and which protocol
 callbacks the worker thread then makes before it exits.
 */
module Lifecycle {
  import opened Wrappers
  import opened Events

  /** The fields of a `Client` together with the queue of its current
      `WSClient` and the two subscriber notification points, each modelled
      as the list of payloads emitted to it so far. */
  datatype ClientState = ClientState(
    queue: seq<Event>,
    hasThread: bool,
    initializationOk: Option<bool>,
    enableReconnection: bool,
    stopped: bool,
    trades: seq<Payload>,
    orderBookUpdates: seq<Payload>)

  /** One connection attempt as the environment answers it. */
  datatype Attempt = Attempt(connectOk: bool, callbacks: seq<Callback>)

  /** The new state after a dispatch, and whether an event reached a handler. */
  datatype Dispatched = Dispatched(state: ClientState, processed: bool)

  datatype StartError = AlreadyRunning | InitializationFailed

  /** What `start` does: `Pass` when it returns, `Fail` when it raises. */
  datatype Outcome = Pass | Fail(error: StartError)

  datatype Started = Started(state: ClientState, outcome: Outcome)

  /** A freshly constructed client. */
  function Initial(): ClientState {
    ClientState([], false, None, false, false, [], [])
  }

  /** `__dispatchImpl`: pop at most one event, drop it if the filter refuses
      its kind, otherwise route it by kind. An empty queue stands for the
      queue read timing out. `reconnects` answers the connection attempts of
      a reconnection, if routing a disconnection starts one. */
  function Dispatch(s: ClientState, filter: EventFilter, reconnects: seq<Attempt>): (r: Dispatched)
    ensures s.queue == [] ==> r == Dispatched(s, false)
    ensures s.queue != [] && !(s.queue[0].kind == ON_DISCONNECTED && Admits(filter, ON_DISCONNECTED) && s.enableReconnection)
            ==> r.state.queue == s.queue[1..]
  {
    if s.queue == [] then Dispatched(s, false)
    else
      var e := s.queue[0];
      var rest := s.(queue := s.queue[1..]);
      if !Admits(filter, e.kind) then Dispatched(rest, false)
      else if e.kind == ON_TRADE then Dispatched(rest.(trades := rest.trades + [e.data]), true)
      else if e.kind == ON_ORDER_BOOK_UPDATE then Dispatched(rest.(orderBookUpdates := rest.orderBookUpdates + [e.data]), true)
      else if e.kind == ON_CONNECTED then Dispatched(OnConnected(rest), true)
      else if e.kind == ON_DISCONNECTED then Dispatched(OnDisconnected(rest, reconnects), true)
      else Dispatched(rest, false)
  }

  /** `__onConnected`. */
  function OnConnected(s: ClientState): (r: ClientState)
    ensures r.initializationOk == Some(true)
    ensures r.(initializationOk := s.initializationOk) == s
  {
    s.(initializationOk := Some(true))
  }

  /** `__onDisconnected`: reconnect when reconnection is enabled, else stop. */
  function OnDisconnected(s: ClientState, reconnects: seq<Attempt>): ClientState
  {
    if s.enableReconnection then Reconnect(s, reconnects) else s.(stopped := true)
  }

  /** The retry loop of `__onDisconnected`: initialize again until that
      succeeds or the client is stopped. The attempts are the ones made
      before an external `stop()` ends the retries; the 5 second pause
      between attempts is not modelled. */
  function Reconnect(s: ClientState, reconnects: seq<Attempt>): ClientState
    decreases |reconnects|
  {
    if s.stopped then s
    else if reconnects == [] then s.(stopped := true)
    else
      var s1 := Initialize(s, reconnects[0]);
      if s1.initializationOk == Some(true) then s1 else Reconnect(s1, reconnects[1..])
  }

  /** `__initializeClient`: connect, then wait for the connection. */
  function Initialize(s: ClientState, attempt: Attempt): ClientState
  {
    Wait(Connect(s, attempt))
  }

  /** The part of `__initializeClient` before its wait loop: forget the old
      thread and queue, create a new websocket client and connect it; when
      `connect()` raises, record the failure, otherwise start the worker. */
  function Connect(s: ClientState, attempt: Attempt): (r: ClientState)
    ensures r.stopped == s.stopped && r.enableReconnection == s.enableReconnection
    ensures r.trades == s.trades && r.orderBookUpdates == s.orderBookUpdates
    ensures r.hasThread == attempt.connectOk
    ensures r.initializationOk == (if attempt.connectOk then None else Some(false))
    ensures r.queue == (if attempt.connectOk then EventsOf(attempt.callbacks) else [])
  {
    var reset := s.(initializationOk := None, hasThread := false, queue := []);
    if !attempt.connectOk then reset.(initializationOk := Some(false))
    else reset.(hasThread := true, queue := EventsOf(attempt.callbacks))
  }

  /** The wait loop of `__initializeClient`: dispatch, letting only the
      connected event through, while no result is recorded and the worker is
      alive. The worker stays alive until the events it pushes are drained. */
  function Wait(s: ClientState): ClientState
    decreases |s.queue|
  {
    if s.initializationOk.Some? || s.queue == [] then s
    else Wait(WaitStep(s))
  }

  /** One dispatch of the wait loop: the head event is consumed, and only a
      connected event has an effect. */
  function WaitStep(s: ClientState): (r: ClientState)
    requires s.queue != []
    ensures |r.queue| < |s.queue|
  {
    var rest := s.(queue := s.queue[1..]);
    if s.queue[0].kind == ON_CONNECTED then OnConnected(rest) else rest
  }

  /** `start`. */
  function Start(s: ClientState, attempt: Attempt): Started {
    if s.hasThread then Started(s, Fail(AlreadyRunning))
    else
      var s1 := Initialize(s, attempt);
      if s1.initializationOk == Some(true) then Started(s1, Pass)
      else Started(s1.(stopped := true), Fail(InitializationFailed))
  }

  /** `stop`, as far as the client's own fields go. */
  function Stop(s: ClientState): ClientState {
    s.(stopped := true)
  }

  /** What `eof` is documented to report: the client is stopped and no event
      is left for `dispatch` to hand over. */
  predicate Exhausted(s: ClientState) {
    s.stopped && s.queue == []
  }

  /** Where the first connected event sits in a queue (`|q|` when absent). */
  function ConnectedIndex(q: seq<Event>): (i: nat)
    ensures i <= |q|
    ensures forall j :: 0 <= j < i ==> q[j].kind != ON_CONNECTED
    ensures i < |q| ==> q[i].kind == ON_CONNECTED
  {
    if q == [] then 0
    else if q[0].kind == ON_CONNECTED then 0
    else 1 + ConnectedIndex(q[1..])
  }

  /** An attempt initializes the client: the connect call returns and the
      worker reports an established connection. */
  predicate Succeeds(a: Attempt) {
    a.connectOk && exists i :: 0 <= i < |a.callbacks| && a.callbacks[i].ConnectionEstablished?
  }

  /** `n` consecutive unfiltered dispatches, and what each returned. */
  function DispatchTimes(s: ClientState, n: nat, reconnects: seq<Attempt>): (r: (ClientState, seq<bool>))
    ensures |r.1| == n
    decreases n
  {
    if n == 0 then (s, [])
    else
      var d := Dispatch(s, None, reconnects);
      var rest := DispatchTimes(d.state, n - 1, reconnects);
      (rest.0, [d.processed] + rest.1)
  }
}
