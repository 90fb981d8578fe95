/**
 * The reconnecting, queueing socket client of the issue chat
 * (`WebSocketManager` in websocket-manager.js).
 *
 * The transport is not modelled: the manager records the transports it
 * creates (`sockets`), the notifications a transport delivers are methods
 * (`HandleOpen`, `HandleMessage`, `HandleClose`), whether `this.socket` is
 * OPEN is a parameter of the calls that read it, and everything the manager
 * does to the outside world (a frame transmitted, a transport closed, a
 * callback called) is appended to one ordered log, `effects`.
 */
module SocketClient {
  import opened Wrappers
  import opened JsValue

  const DefaultUrl: string := "ws://localhost:8787"
  const MaxReconnectAttempts: nat := 5
  /** The close code of an intentional ("normal") closure. */
  const NormalClosure: int := 1000

  // ---------------------------------------------------------------- callbacks

  /** The five callback slots of `this.callbacks`. */
  datatype Slot = OnMessage | OnConnect | OnDisconnect | OnFileReceived | OnTraceUpdate

  /** `this.callbacks`: one optional callback per slot. */
  datatype Callbacks = Callbacks(
    onMessage: Option<Callback>,
    onConnect: Option<Callback>,
    onDisconnect: Option<Callback>,
    onFileReceived: Option<Callback>,
    onTraceUpdate: Option<Callback>)
  {
    function Get(slot: Slot): Option<Callback> {
      match slot
      case OnMessage => onMessage
      case OnConnect => onConnect
      case OnDisconnect => onDisconnect
      case OnFileReceived => onFileReceived
      case OnTraceUpdate => onTraceUpdate
    }

    /** Registering replaces the callback of one slot and leaves the others alone. */
    function Set(slot: Slot, cb: Option<Callback>): (r: Callbacks)
      ensures r.Get(slot) == cb
      ensures forall other :: other != slot ==> r.Get(other) == Get(other)
    {
      match slot
      case OnMessage => this.(onMessage := cb)
      case OnConnect => this.(onConnect := cb)
      case OnDisconnect => this.(onDisconnect := cb)
      case OnFileReceived => this.(onFileReceived := cb)
      case OnTraceUpdate => this.(onTraceUpdate := cb)
    }
  }

  const NoCallbacks: Callbacks := Callbacks(None, None, None, None, None)

  /** What a callback is called with. */
  datatype Arg = NoArg | Payload(data: Value) | CloseEvent(code: int, reason: string)

  // ------------------------------------------------------------------ frames

  /** An entry of `messageQueue`: `{type, data}`. */
  datatype Queued = Queued(kind: string, data: Value)

  /** An outbound envelope: `{type, data, timestamp}`. */
  datatype Frame = Frame(kind: string, data: Value, timestamp: string)

  /** What the manager does to the outside world, in the order it does it. */
  datatype Effect =
    | Transmit(frame: Frame)
    | CloseTransport(code: int, reason: string)
    | Invoke(slot: Slot, callback: Callback, arg: Arg)

  /** Calling the callback of `slot`, if one is registered. */
  function Fire(cbs: Callbacks, slot: Slot, arg: Arg): (r: seq<Effect>)
    ensures |r| <= 1
    ensures r == [] <==> cbs.Get(slot).None?
    ensures forall e :: e in r ==> e.Invoke? && e.slot == slot && Some(e.callback) == cbs.Get(slot) && e.arg == arg
  {
    match cbs.Get(slot)
    case None => []
    case Some(cb) => [Invoke(slot, cb, arg)]
  }

  /** The frames that transmitting the queue `q` at time `now` sends, in queue order. */
  function Transmissions(q: seq<Queued>, now: string): (r: seq<Effect>)
    ensures |r| == |q|
  {
    seq(|q|, i requires 0 <= i < |q| => Transmit(Frame(q[i].kind, q[i].data, now)))
  }

  /** Transmitting one more queued message extends the transmissions by its frame. */
  lemma TransmissionsSnoc(q: seq<Queued>, n: nat, now: string)
    requires n < |q|
    ensures Transmissions(q[..n + 1], now) == Transmissions(q[..n], now) + [Transmit(Frame(q[n].kind, q[n].data, now))]
  {
    assert q[..n + 1][..n] == q[..n];
  }

  // ----------------------------------------------------------- inbound routing

  /** The inbound `type` that feeds each slot; the connection slots are fed by none. */
  function InboundType(slot: Slot): Option<string> {
    match slot
    case OnMessage => Some("chat_message")
    case OnFileReceived => Some("file_update")
    case OnTraceUpdate => Some("trace_update")
    case _ => None
  }

  /** Where `onmessage` sends a frame: the slot and the frame's `data`, or
      nowhere for a frame that did not parse or has another `type`. */
  function Route(frame: Parse): (r: Option<(Slot, Value)>)
    ensures frame.Malformed? ==> r.None?
    ensures forall slot :: (r.Some? && r.value.0 == slot) <==>
      frame.Parsed? && InboundType(slot).Some? && Member(frame.value, "type") == Str(InboundType(slot).value)
    ensures r.Some? ==> r.value.1 == Member(frame.value, "data")
  {
    match frame
    case Malformed => None
    case Parsed(message) =>
      var kind := Member(message, "type");
      if kind == Str("chat_message") then Some((OnMessage, Member(message, "data")))
      else if kind == Str("file_update") then Some((OnFileReceived, Member(message, "data")))
      else if kind == Str("trace_update") then Some((OnTraceUpdate, Member(message, "data")))
      else None
  }

  // ------------------------------------------------- the reconnection counter

  /** The `onclose` test: reconnect after an abnormal close while attempts remain. */
  predicate ShouldReconnect(code: int, attempts: nat) {
    code != NormalClosure && attempts < MaxReconnectAttempts
  }

  /** The notifications that move the retry counter. */
  datatype LinkEvent = Opened | Closed(code: int)

  /** The retry counter after one notification. */
  function Step(attempts: nat, e: LinkEvent): nat {
    match e
    case Opened => 0
    case Closed(code) => if ShouldReconnect(code, attempts) then attempts + 1 else attempts
  }

  /** The retry counter after a run of notifications. */
  function Run(attempts: nat, es: seq<LinkEvent>): (r: nat)
    ensures r <= attempts + |es|
    ensures Opened !in es ==> attempts <= r
    decreases |es|
  {
    if es == [] then attempts else Run(Step(attempts, es[0]), es[1..])
  }

  /** How many reconnects a run of notifications schedules. */
  function Retries(attempts: nat, es: seq<LinkEvent>): (r: nat)
    ensures r <= |es|
    ensures Opened !in es ==> Run(attempts, es) == attempts + r
    decreases |es|
  {
    if es == [] then 0
    else (if es[0].Closed? && ShouldReconnect(es[0].code, attempts) then 1 else 0)
         + Retries(Step(attempts, es[0]), es[1..])
  }

  /** The counter never exceeds its bound. */
  lemma {:induction false} RunBounded(attempts: nat, es: seq<LinkEvent>)
    requires attempts <= MaxReconnectAttempts
    ensures Run(attempts, es) <= MaxReconnectAttempts
    decreases |es|
  {
    if es != [] {
      RunBounded(Step(attempts, es[0]), es[1..]);
    }
  }

  /** Normal closes never touch the counter and never schedule a reconnect. */
  lemma {:induction false} NormalClosesKeepCounter(attempts: nat, es: seq<LinkEvent>)
    requires forall i :: 0 <= i < |es| ==> es[i] == Closed(NormalClosure)
    ensures Run(attempts, es) == attempts && Retries(attempts, es) == 0
    decreases |es|
  {
    if es != [] {
      NormalClosesKeepCounter(attempts, es[1..]);
    }
  }

  /** A run of abnormal closes schedules reconnects until the attempts are used
      up, and no more: from a fresh counter, min(n, MaxReconnectAttempts) of them. */
  lemma {:induction false} AbnormalClosesExhaust(attempts: nat, es: seq<LinkEvent>)
    requires attempts <= MaxReconnectAttempts
    requires forall i :: 0 <= i < |es| ==> es[i].Closed? && es[i].code != NormalClosure
    ensures Retries(attempts, es) == if |es| <= MaxReconnectAttempts - attempts then |es| else MaxReconnectAttempts - attempts
    ensures Run(attempts, es) == attempts + Retries(attempts, es)
    decreases |es|
  {
    if es != [] {
      AbnormalClosesExhaust(Step(attempts, es[0]), es[1..]);
    }
  }

  /** Running two runs one after the other. */
  lemma {:induction false} RunAppend(attempts: nat, es: seq<LinkEvent>, more: seq<LinkEvent>)
    ensures Run(attempts, es + more) == Run(Run(attempts, es), more)
    ensures Retries(attempts, es + more) == Retries(attempts, es) + Retries(Run(attempts, es), more)
    decreases |es|
  {
    if es == [] {
      assert es + more == more;
    } else {
      assert (es + more)[1..] == es[1..] + more;
      RunAppend(Step(attempts, es[0]), es[1..], more);
    }
  }

  /** A successful open resets the counter: whatever happened before, an
      abnormal close after an open is retried. */
  lemma OpenResetsRetries(attempts: nat, es: seq<LinkEvent>, code: int)
    requires code != NormalClosure
    ensures Run(attempts, es + [Opened]) == 0
    ensures Retries(attempts, es + [Opened, Closed(code)]) == Retries(attempts, es) + 1
  {
    RunAppend(attempts, es, [Opened]);
    RunAppend(attempts, es, [Opened, Closed(code)]);
    assert [Opened, Closed(code)][1..] == [Closed(code)];
    assert [Closed(code)][1..] == [];
    assert Retries(0, [Closed(code)]) == 1;
    assert Retries(Run(attempts, es), [Opened, Closed(code)]) == 1;
  }

  // ------------------------------------------------------- the flush, as written

  /** One pass of the body of the `onopen` flush loop as the source writes it:
      `shift` the head, then `sendMessage` it, which pushes it back on the tail
      when it cannot transmit. */
  function FlushPassAsWritten(q: seq<Queued>, transmits: bool): (r: seq<Queued>)
    requires q != []
  {
    if transmits then q[1..] else q[1..] + [q[0]]
  }

  /** The queue after `n` passes of that loop (it stops once the queue is empty). */
  function QueueAfterPasses(q: seq<Queued>, transmits: bool, n: nat): seq<Queued>
    decreases n
  {
    if n == 0 || q == [] then q else QueueAfterPasses(FlushPassAsWritten(q, transmits), transmits, n - 1)
  }

  /** When `this.socket` is not OPEN the loop makes no progress: after any number
      of passes the queue is as long as before, so `messageQueue.length > 0`
      stays true and the handler never returns. */
  lemma {:induction false} FlushAsWrittenNeverEnds(q: seq<Queued>, n: nat)
    requires q != []
    ensures |QueueAfterPasses(q, false, n)| == |q|
    decreases n
  {
    if n > 0 {
      FlushAsWrittenNeverEnds(FlushPassAsWritten(q, false), n - 1);
    }
  }

  /** When it is OPEN, |q| passes drain the queue. */
  lemma {:induction false} FlushAsWrittenDrains(q: seq<Queued>)
    ensures QueueAfterPasses(q, true, |q|) == []
    decreases |q|
  {
    if q != [] {
      FlushAsWrittenDrains(q[1..]);
    }
  }

  // ------------------------------------------------------------ the manager

  class WebSocketManager {
    /** The URLs of the transports created so far, oldest first; the last one is
        `this.socket`, and `this.socket` is null while there is none. */
    var sockets: seq<string>
    var isConnected: bool
    var messageQueue: seq<Queued>
    var callbacks: Callbacks
    var reconnectAttempts: nat
    /** The URLs of the reconnect timers set and not yet fired, in the order they fire. */
    var pendingReconnects: seq<string>
    var effects: seq<Effect>

    ghost predicate Valid()
      reads this
    {
      && reconnectAttempts <= MaxReconnectAttempts
      // `sendMessage` reads `this.socket.readyState` only when connected: never of null
      && (isConnected ==> sockets != [])
    }

    /** `this.socket`: the URL of the current transport, if there is one. */
    function Socket(): Option<string>
      reads this
    {
      if sockets == [] then None else Some(sockets[|sockets| - 1])
    }

    constructor ()
      ensures Valid()
      ensures sockets == [] && !isConnected && messageQueue == []
      ensures callbacks == NoCallbacks && reconnectAttempts == 0
      ensures pendingReconnects == [] && effects == []
    {
      sockets := [];
      isConnected := false;
      messageQueue := [];
      callbacks := NoCallbacks;
      reconnectAttempts := 0;
      pendingReconnects := [];
      effects := [];
    }

    /** `connect(url)`: creates a transport; `accepted` is false when the
        transport's constructor throws, which is caught and changes nothing. */
    method Connect(accepted: bool, url: string := DefaultUrl)
      requires Valid()
      modifies this
      ensures Valid()
      ensures sockets == if accepted then old(sockets) + [url] else old(sockets)
      ensures accepted ==> Socket() == Some(url)
      ensures isConnected == old(isConnected) && messageQueue == old(messageQueue)
      ensures callbacks == old(callbacks) && reconnectAttempts == old(reconnectAttempts)
      ensures pendingReconnects == old(pendingReconnects) && effects == old(effects)
    {
      if accepted {
        sockets := sockets + [url];
      }
    }

    /** The test `sendMessage` makes before transmitting. */
    predicate CanTransmit(channelOpen: bool)
      reads this
    {
      isConnected && channelOpen
    }

    /** `sendMessage(type, data)`: transmits one stamped frame when connected and
        the socket is OPEN, and otherwise appends `{type, data}` to the queue. */
    method SendMessage(kind: string, data: Value, channelOpen: bool, now: string)
      requires Valid()
      modifies this
      ensures Valid()
      ensures old(CanTransmit(channelOpen)) ==>
        effects == old(effects) + [Transmit(Frame(kind, data, now))] && messageQueue == old(messageQueue)
      ensures !old(CanTransmit(channelOpen)) ==>
        messageQueue == old(messageQueue) + [Queued(kind, data)] && effects == old(effects)
      ensures sockets == old(sockets) && isConnected == old(isConnected)
      ensures callbacks == old(callbacks) && reconnectAttempts == old(reconnectAttempts)
      ensures pendingReconnects == old(pendingReconnects)
    {
      var frame := Frame(kind, data, now);
      if CanTransmit(channelOpen) {
        effects := effects + [Transmit(frame)];
      } else {
        messageQueue := messageQueue + [Queued(kind, data)];
      }
    }

    method SendChatMessage(message: Value, channelOpen: bool, now: string)
      requires Valid()
      modifies this
      ensures Valid()
      ensures old(CanTransmit(channelOpen)) ==>
        effects == old(effects) + [Transmit(Frame("chat_message", message, now))] && messageQueue == old(messageQueue)
      ensures !old(CanTransmit(channelOpen)) ==>
        messageQueue == old(messageQueue) + [Queued("chat_message", message)] && effects == old(effects)
      ensures sockets == old(sockets) && isConnected == old(isConnected)
      ensures callbacks == old(callbacks) && reconnectAttempts == old(reconnectAttempts)
      ensures pendingReconnects == old(pendingReconnects)
    {
      SendMessage("chat_message", message, channelOpen, now);
    }

    method UploadFile(fileData: Value, channelOpen: bool, now: string)
      requires Valid()
      modifies this
      ensures Valid()
      ensures old(CanTransmit(channelOpen)) ==>
        effects == old(effects) + [Transmit(Frame("file_upload", fileData, now))] && messageQueue == old(messageQueue)
      ensures !old(CanTransmit(channelOpen)) ==>
        messageQueue == old(messageQueue) + [Queued("file_upload", fileData)] && effects == old(effects)
      ensures sockets == old(sockets) && isConnected == old(isConnected)
      ensures callbacks == old(callbacks) && reconnectAttempts == old(reconnectAttempts)
      ensures pendingReconnects == old(pendingReconnects)
    {
      SendMessage("file_upload", fileData, channelOpen, now);
    }

    method UpdateTraceSelection(traceData: Value, channelOpen: bool, now: string)
      requires Valid()
      modifies this
      ensures Valid()
      ensures old(CanTransmit(channelOpen)) ==>
        effects == old(effects) + [Transmit(Frame("trace_selection", traceData, now))] && messageQueue == old(messageQueue)
      ensures !old(CanTransmit(channelOpen)) ==>
        messageQueue == old(messageQueue) + [Queued("trace_selection", traceData)] && effects == old(effects)
      ensures sockets == old(sockets) && isConnected == old(isConnected)
      ensures callbacks == old(callbacks) && reconnectAttempts == old(reconnectAttempts)
      ensures pendingReconnects == old(pendingReconnects)
    {
      SendMessage("trace_selection", traceData, channelOpen, now);
    }

    /** `onopen`: connected, counter reset, the queue flushed in order, then the
        connect callback.  The flush stops as soon as `sendMessage` would not
        transmit, leaving the rest queued (see FlushAsWrittenNeverEnds for what
        the source's loop does then). */
    method HandleOpen(channelOpen: bool, now: string)
      requires Valid() && sockets != []
      modifies this
      ensures Valid()
      ensures isConnected && reconnectAttempts == Step(old(reconnectAttempts), Opened)
      ensures messageQueue == if channelOpen then [] else old(messageQueue)
      ensures effects == old(effects)
                         + (if channelOpen then Transmissions(old(messageQueue), now) else [])
                         + Fire(callbacks, Slot.OnConnect, NoArg)
      ensures sockets == old(sockets) && callbacks == old(callbacks)
      ensures pendingReconnects == old(pendingReconnects)
    {
      isConnected := true;
      reconnectAttempts := 0;
      FlushQueue(channelOpen, now);
      effects := effects + Fire(callbacks, Slot.OnConnect, NoArg);
    }

    /** The flush loop of `onopen`, once connected: every queued message is
        transmitted in order when the channel is open, none otherwise. */
    method FlushQueue(channelOpen: bool, now: string)
      requires Valid() && isConnected
      modifies this
      ensures Valid()
      ensures messageQueue == if channelOpen then [] else old(messageQueue)
      ensures effects == old(effects) + if channelOpen then Transmissions(old(messageQueue), now) else []
      ensures sockets == old(sockets) && callbacks == old(callbacks) && isConnected
      ensures reconnectAttempts == old(reconnectAttempts)
      ensures pendingReconnects == old(pendingReconnects)
    {
      ghost var queued := messageQueue;
      ghost var before := effects;
      ghost var done := 0;
      while messageQueue != [] && CanTransmit(channelOpen)
        invariant Valid() && isConnected && reconnectAttempts == old(reconnectAttempts)
        invariant 0 <= done <= |queued| && messageQueue == queued[done..]
        invariant effects == before + Transmissions(queued[..done], now)
        invariant !channelOpen ==> done == 0
        invariant sockets == old(sockets) && callbacks == old(callbacks)
        invariant pendingReconnects == old(pendingReconnects)
        decreases |messageQueue|
      {
        var queuedMessage := messageQueue[0];
        assert queuedMessage == queued[done];
        messageQueue := messageQueue[1..];
        assert messageQueue == queued[done + 1..];
        SendMessage(queuedMessage.kind, queuedMessage.data, channelOpen, now);
        TransmissionsSnoc(queued, done, now);
        done := done + 1;
      }
      assert channelOpen ==> done == |queued| && queued[..done] == queued;
    }

    /** `onmessage`: a frame reaches at most the one callback its `type` selects;
        nothing else changes. */
    method HandleMessage(frame: Parse)
      modifies this
      ensures effects == old(effects) + match Route(frame)
                                         case None => []
                                         case Some(r) => Fire(callbacks, r.0, Payload(r.1))
      ensures sockets == old(sockets) && isConnected == old(isConnected)
      ensures messageQueue == old(messageQueue) && callbacks == old(callbacks)
      ensures reconnectAttempts == old(reconnectAttempts) && pendingReconnects == old(pendingReconnects)
    {
      match Route(frame)
      case None =>
      case Some(r) =>
        effects := effects + Fire(callbacks, r.0, Payload(r.1));
    }

    /** `onclose` of the transport created `id`-th: disconnected, the disconnect
        callback called with the close event, and a reconnect to that transport's
        URL scheduled only after an abnormal close with attempts left. */
    method HandleClose(id: nat, code: int, reason: string)
      requires Valid() && id < |sockets|
      modifies this
      ensures Valid()
      ensures !isConnected
      ensures effects == old(effects) + Fire(callbacks, Slot.OnDisconnect, CloseEvent(code, reason))
      ensures reconnectAttempts == Step(old(reconnectAttempts), Closed(code))
      ensures pendingReconnects == old(pendingReconnects)
                                   + (if ShouldReconnect(code, old(reconnectAttempts)) then [old(sockets[id])] else [])
      ensures sockets == old(sockets) && messageQueue == old(messageQueue) && callbacks == old(callbacks)
    {
      isConnected := false;
      effects := effects + Fire(callbacks, Slot.OnDisconnect, CloseEvent(code, reason));
      if code != NormalClosure && reconnectAttempts < MaxReconnectAttempts {
        reconnectAttempts := reconnectAttempts + 1;
        pendingReconnects := pendingReconnects + [sockets[id]];
      }
    }

    /** The earliest reconnect timer fires and calls `connect` with its URL. */
    method ReconnectTimerFires(accepted: bool)
      requires Valid() && pendingReconnects != []
      modifies this
      ensures Valid()
      ensures pendingReconnects == old(pendingReconnects[1..])
      ensures sockets == if accepted then old(sockets) + [old(pendingReconnects[0])] else old(sockets)
      ensures isConnected == old(isConnected) && messageQueue == old(messageQueue)
      ensures callbacks == old(callbacks) && reconnectAttempts == old(reconnectAttempts)
      ensures effects == old(effects)
    {
      var url := pendingReconnects[0];
      pendingReconnects := pendingReconnects[1..];
      Connect(accepted, url);
    }

    method OnMessage(cb: Option<Callback>)
      modifies this
      ensures callbacks == old(callbacks).Set(Slot.OnMessage, cb)
      ensures sockets == old(sockets) && isConnected == old(isConnected) && messageQueue == old(messageQueue)
      ensures reconnectAttempts == old(reconnectAttempts) && pendingReconnects == old(pendingReconnects)
      ensures effects == old(effects)
    {
      callbacks := callbacks.(onMessage := cb);
    }

    method OnConnect(cb: Option<Callback>)
      modifies this
      ensures callbacks == old(callbacks).Set(Slot.OnConnect, cb)
      ensures sockets == old(sockets) && isConnected == old(isConnected) && messageQueue == old(messageQueue)
      ensures reconnectAttempts == old(reconnectAttempts) && pendingReconnects == old(pendingReconnects)
      ensures effects == old(effects)
    {
      callbacks := callbacks.(onConnect := cb);
    }

    method OnDisconnect(cb: Option<Callback>)
      modifies this
      ensures callbacks == old(callbacks).Set(Slot.OnDisconnect, cb)
      ensures sockets == old(sockets) && isConnected == old(isConnected) && messageQueue == old(messageQueue)
      ensures reconnectAttempts == old(reconnectAttempts) && pendingReconnects == old(pendingReconnects)
      ensures effects == old(effects)
    {
      callbacks := callbacks.(onDisconnect := cb);
    }

    method OnFileReceived(cb: Option<Callback>)
      modifies this
      ensures callbacks == old(callbacks).Set(Slot.OnFileReceived, cb)
      ensures sockets == old(sockets) && isConnected == old(isConnected) && messageQueue == old(messageQueue)
      ensures reconnectAttempts == old(reconnectAttempts) && pendingReconnects == old(pendingReconnects)
      ensures effects == old(effects)
    {
      callbacks := callbacks.(onFileReceived := cb);
    }

    method OnTraceUpdate(cb: Option<Callback>)
      modifies this
      ensures callbacks == old(callbacks).Set(Slot.OnTraceUpdate, cb)
      ensures sockets == old(sockets) && isConnected == old(isConnected) && messageQueue == old(messageQueue)
      ensures reconnectAttempts == old(reconnectAttempts) && pendingReconnects == old(pendingReconnects)
      ensures effects == old(effects)
    {
      callbacks := callbacks.(onTraceUpdate := cb);
    }

    /** `disconnect()`: asks the current transport, if any, to close normally.
        The close notification arrives later, through HandleClose; timers
        already set are not cancelled. */
    method Disconnect()
      modifies this
      ensures effects == old(effects) + (if old(sockets) != [] then [CloseTransport(NormalClosure, "Intentional disconnect")] else [])
      ensures sockets == old(sockets) && isConnected == old(isConnected) && messageQueue == old(messageQueue)
      ensures callbacks == old(callbacks) && reconnectAttempts == old(reconnectAttempts)
      ensures pendingReconnects == old(pendingReconnects)
    {
      if sockets != [] {
        effects := effects + [CloseTransport(NormalClosure, "Intentional disconnect")];
      }
    }
  }

  /** A caller's view: two messages sent before the connection opens are
      transmitted, in the order sent, when it does. */
  method QueuedUntilOpen(first: Value, second: Value, now: string) returns (sent: seq<Effect>)
    ensures sent == [Transmit(Frame("chat_message", first, now)), Transmit(Frame("file_upload", second, now))]
  {
    var m := new WebSocketManager();
    m.Connect(true);
    m.SendChatMessage(first, true, now);
    m.UploadFile(second, true, now);
    assert m.messageQueue == [Queued("chat_message", first), Queued("file_upload", second)];
    m.HandleOpen(true, now);
    sent := m.effects;
  }
}
