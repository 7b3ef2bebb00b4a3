/**
 The tagged events that the websocket worker hands to the dispatching
 client through the queue, and the protocol callbacks that create them.
 */
module Events {
  import opened Wrappers

  // Event kinds put on the queue (WSClient.ON_* in the source).
  const ON_TRADE: int := 1
  const ON_ORDER_BOOK_UPDATE: int := 2
  const ON_CONNECTED: int := 3
  const ON_DISCONNECTED: int := 4

  /** A decoded trade message; the client never looks inside it. */
  datatype Trade = Trade(raw: string)

  /** A decoded order book message; the client never looks inside it. */
  datatype OrderBookUpdate = OrderBookUpdate(raw: string)

  /** The second half of a queued pair: `None` for the lifecycle events. */
  datatype Payload = NoData | TradeData(trade: Trade) | OrderBookData(update: OrderBookUpdate)

  /** A queued `(kind, payload)` pair. The kind is an integer, so a kind
      outside the four above can be expressed and is handled by dispatch. */
  datatype Event = Event(kind: int, data: Payload)

  /** The callbacks of the websocket library that put an event on the queue. */
  datatype Callback =
    | TradeReceived(trade: Trade)
    | OrderBookUpdateReceived(update: OrderBookUpdate)
    | ConnectionEstablished
    | DisconnectionDetected

  predicate IsKnownKind(kind: int) {
    ON_TRADE <= kind <= ON_DISCONNECTED
  }

  /** The event a callback enqueues. */
  function EventOf(c: Callback): (e: Event)
    ensures IsKnownKind(e.kind)
    ensures (e.kind == ON_TRADE) == c.TradeReceived?
    ensures (e.kind == ON_ORDER_BOOK_UPDATE) == c.OrderBookUpdateReceived?
    ensures (e.kind == ON_CONNECTED) == c.ConnectionEstablished?
    ensures c.TradeReceived? ==> e.data == TradeData(c.trade)
    ensures c.OrderBookUpdateReceived? ==> e.data == OrderBookData(c.update)
  {
    match c
    case TradeReceived(t) => Event(ON_TRADE, TradeData(t))
    case OrderBookUpdateReceived(u) => Event(ON_ORDER_BOOK_UPDATE, OrderBookData(u))
    case ConnectionEstablished => Event(ON_CONNECTED, NoData)
    case DisconnectionDetected => Event(ON_DISCONNECTED, NoData)
  }

  /** The events a run of callbacks enqueues, in callback order. */
  function EventsOf(cs: seq<Callback>): (es: seq<Event>)
    ensures |es| == |cs|
    ensures forall i :: 0 <= i < |cs| ==> es[i] == EventOf(cs[i])
  {
    if cs == [] then [] else EventsOf(cs[..|cs| - 1]) + [EventOf(cs[|cs| - 1])]
  }

  /** The channel names a run of callbacks subscribes to, in order: the
      trade and order book channels for each established connection. */
  function ChannelsOf(cs: seq<Callback>): seq<string> {
    if cs == [] then [] else ChannelsOf(cs[..|cs| - 1]) + ChannelsFor(cs[|cs| - 1])
  }

  /** The channels one callback subscribes to. */
  function ChannelsFor(c: Callback): seq<string> {
    if c.ConnectionEstablished? then ["live_trades", "order_book"] else []
  }

  /** Extending a run of callbacks by one extends what it enqueues and
      subscribes to by that callback's share. */
  lemma CallbacksExtended(cs: seq<Callback>, i: nat)
    requires i < |cs|
    ensures EventsOf(cs[..i + 1]) == EventsOf(cs[..i]) + [EventOf(cs[i])]
    ensures ChannelsOf(cs[..i + 1]) == ChannelsOf(cs[..i]) + ChannelsFor(cs[i])
  {
    assert cs[..i + 1][..i] == cs[..i];
  }

  /** The event filter of `__dispatchImpl`: `None`, or the kinds let through. */
  type EventFilter = Option<set<int>>

  predicate Admits(filter: EventFilter, kind: int) {
    filter.None? || kind in filter.value
  }

  /** The filter the initialization wait loop dispatches with. */
  function ConnectedOnly(): (f: EventFilter)
    ensures forall kind :: Admits(f, kind) <==> kind == ON_CONNECTED
  {
    Some({ON_CONNECTED})
  }
}
