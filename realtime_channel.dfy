/**
 * The realtime channel client of the control panel (the WebSocket provider).
 *
 * The provider owns one socket handle and four pieces of state that its socket
 * callbacks and its two commands (`reconnect`, `sendMessage`) update in place.
 * Here it is the class `Client`. The socket itself is abstract: a handle with an
 * id and a ready state. What the provider asks of sockets (create, transmit,
 * close) is appended to the `transport` log, and each `setTimeout` retry still
 * waiting to fire is one entry of `pending`, holding its delay.
 * `JSON.parse` and the socket constructor are oracles passed in as parameters.
 */
module RealtimeChannel {
  import opened Wrappers

  /** A value produced by `JSON.parse`. Numbers are reals (IEEE rounding is not modelled). */
  datatype JsonValue =
    | JNull
    | JBool(b: bool)
    | JNumber(n: real)
    | JString(s: string)
    | JArray(items: seq<JsonValue>)
    | JObject(members: seq<(string, JsonValue)>)

  /** JavaScript truthiness of a parsed value: null, false, 0 and "" are falsy. */
  predicate Truthy(v: JsonValue) {
    match v
    case JNull => false
    case JBool(b) => b
    case JNumber(n) => n != 0.0
    case JString(s) => s != ""
    case JArray(_) => true
    case JObject(_) => true
  }

  /** Default of the provider's `reconnectDelay` property, in milliseconds. */
  const DefaultReconnectDelay: nat := 3000

  const NotInitialized: string := "WebSocket not initialized"
  const NotConnected: string := "WebSocket not connected"
  const MessageEmpty: string := "Message empty"
  const SendErrorPrefix: string := "Send error: "
  const ParseErrorPrefix: string := "Error parsing message: "
  const ConnectionErrorPrefix: string := "Connection error: "
  /** The socket error handler interpolates a DOM `Event`, whose string form is always "[object Event]". */
  const SocketErrorText: string := "WebSocket error: [object Event]"
  const OutsideProvider: string := "useWebSocket must be used within a WebSocketProvider"

  /** The `readyState` of a WebSocket. */
  datatype ReadyState = Connecting | Open | Closing | Closed

  /** A socket handle: which socket it is, where it points, and its ready state. */
  datatype Socket = Socket(id: nat, url: string, readyState: ReadyState)

  /** What the provider asked of the socket layer, in order. */
  datatype TransportAction =
    | Created(id: nat, url: string)
    | Transmitted(id: nat, message: string)
    | CloseRequested(id: nat)

  /** `close()` moves a connecting or open socket to CLOSING and leaves a closing or closed one as it is. */
  function CloseSocket(s: Socket): (r: Socket)
    ensures r.id == s.id && r.url == s.url
    ensures r.readyState == (if s.readyState in {Connecting, Open} then Closing else s.readyState)
    ensures r.readyState != Open && r.readyState != Connecting
  {
    if s.readyState == Connecting || s.readyState == Open then s.(readyState := Closing) else s
  }

  /**
   * Why `sendMessage(message)` refuses, or None when it transmits: the first of
   * "not initialized", "not connected", "empty" that applies.
   */
  function SendRefusal(instance: Option<Socket>, message: string): (reason: Option<string>)
    ensures reason.None? <==> instance.Some? && instance.value.readyState == Open && message != ""
    ensures reason == Some(NotInitialized) <==> instance.None?
    ensures reason == Some(NotConnected) <==> instance.Some? && instance.value.readyState != Open
    ensures reason == Some(MessageEmpty) <==> instance.Some? && instance.value.readyState == Open && message == ""
  {
    if instance.Some? && instance.value.readyState == Open && message != "" then None
    else if instance.None? then Some(NotInitialized)
    else if instance.value.readyState != Open then Some(NotConnected)
    else Some(MessageEmpty)
  }

  class Client {
    const url: string
    const reconnectDelay: nat
    /** `wsInstance`: the current socket, or null. */
    var instance: Option<Socket>
    /** `wsConnected` */
    var connected: bool
    /** `wsResponse`: the last parsed message. */
    var response: JsonValue
    /** `wsError` */
    var error: Option<string>
    var shouldReconnect: bool
    /** Delays of the scheduled retries that have not fired yet, oldest first. */
    var pending: seq<nat>
    /** Every request made of the socket layer, oldest first. */
    var transport: seq<TransportAction>
    /** Id the next created socket gets. */
    var nextId: nat

    ghost predicate Valid()
      reads this
    {
      && (instance.Some? ==>
            instance.value.id < nextId && instance.value.url == url && instance.value.readyState != Closed)
      && (connected ==> instance.Some?)
      && (forall k :: 0 <= k < |pending| ==> pending[k] == reconnectDelay)
      && (forall k :: 0 <= k < |transport| ==> transport[k].id < nextId)
      && (forall k :: 0 <= k < |transport| && transport[k].Transmitted? ==> transport[k].message != "")
    }

    /** At most one socket or scheduled retry is in flight. */
    ghost predicate SingleFlight()
      reads this
    {
      |pending| + (if instance.Some? then 1 else 0) <= 1
    }

    /** The state change of one `sendMessage(message)`, between `old` and now. */
    twostate predicate SendEffect(message: string)
      reads this
    {
      && instance == old(instance) && connected == old(connected) && response == old(response)
      && shouldReconnect == old(shouldReconnect) && pending == old(pending) && nextId == old(nextId)
      && match SendRefusal(old(instance), message)
         case None =>
           transport == old(transport) + [Transmitted(old(instance).value.id, message)] && error == old(error)
         case Some(reason) =>
           transport == old(transport) && error == Some(SendErrorPrefix + reason)
    }

    /** The provider's initial state; `delay` is the `reconnectDelay` property, if given. */
    constructor (url: string, delay: Option<nat>)
      ensures Valid() && SingleFlight()
      ensures this.url == url
      ensures reconnectDelay == if delay.Some? then delay.value else DefaultReconnectDelay
      ensures instance.None? && !connected && response == JNull && error.None? && shouldReconnect
      ensures pending == [] && transport == [] && nextId == 0
    {
      this.url := url;
      reconnectDelay := if delay.Some? then delay.value else DefaultReconnectDelay;
      instance := None;
      connected := false;
      response := JNull;
      error := None;
      shouldReconnect := true;
      pending := [];
      transport := [];
      nextId := 0;
    }

    /**
     * `connectWebSocket`: nothing when reconnecting is off; otherwise create a
     * socket, or, when construction throws `failure`, record the error and
     * schedule one retry.
     */
    method Connect(failure: Option<string>)
      requires Valid()
      modifies this
      ensures Valid()
      ensures !old(shouldReconnect) ==> unchanged(this)
      ensures old(shouldReconnect) && failure.None? ==>
        && instance == Some(Socket(old(nextId), url, Connecting))
        && transport == old(transport) + [Created(old(nextId), url)]
        && nextId == old(nextId) + 1
        && pending == old(pending) && error == old(error)
      ensures old(shouldReconnect) && failure.Some? ==>
        && error == Some(ConnectionErrorPrefix + failure.value)
        && pending == old(pending) + [reconnectDelay]
        && instance == old(instance) && transport == old(transport) && nextId == old(nextId)
      ensures connected == old(connected) && response == old(response) && shouldReconnect == old(shouldReconnect)
      ensures old(pending == [] && instance.None?) ==> SingleFlight()
    {
      if !shouldReconnect {
        return;
      }
      match failure
      case None =>
        var ws := Socket(nextId, url, Connecting);
        transport := transport + [Created(ws.id, url)];
        nextId := nextId + 1;
        instance := Some(ws);
      case Some(reason) =>
        error := Some(ConnectionErrorPrefix + reason);
        if shouldReconnect {
          pending := pending + [reconnectDelay];
        }
    }

    /** The open event of the current socket: connected, and the error cleared. */
    method OnOpen()
      requires Valid()
      requires instance.Some? && instance.value.readyState == Connecting
      modifies this
      ensures Valid()
      ensures connected && error.None?
      ensures instance == Some(old(instance).value.(readyState := Open))
      ensures response == old(response) && shouldReconnect == old(shouldReconnect)
      ensures pending == old(pending) && transport == old(transport) && nextId == old(nextId)
      ensures old(SingleFlight()) ==> SingleFlight()
    {
      instance := Some(instance.value.(readyState := Open));
      connected := true;
      error := None;
    }

    /**
     * A message event: a payload that parses becomes the last response; one
     * that does not sets the error. Neither touches the connection.
     */
    method OnMessage(data: string, parse: string -> Result<JsonValue, string>)
      requires Valid()
      modifies this
      ensures Valid()
      ensures parse(data).Ok? ==> response == parse(data).value && error == old(error)
      ensures parse(data).Err? ==> response == old(response) && error == Some(ParseErrorPrefix + parse(data).error)
      ensures instance == old(instance) && connected == old(connected) && shouldReconnect == old(shouldReconnect)
      ensures pending == old(pending) && transport == old(transport) && nextId == old(nextId)
    {
      match parse(data)
      case Ok(v) =>
        response := v;
      case Err(e) =>
        error := Some(ParseErrorPrefix + e);
    }

    /**
     * The close event of the current socket: disconnected, no instance, and
     * exactly one retry scheduled when reconnecting is on (none otherwise).
     */
    method OnClose()
      requires Valid()
      requires instance.Some?
      modifies this
      ensures Valid()
      ensures !connected && instance.None?
      ensures pending == old(pending) + (if old(shouldReconnect) then [reconnectDelay] else [])
      ensures response == old(response) && error == old(error) && shouldReconnect == old(shouldReconnect)
      ensures transport == old(transport) && nextId == old(nextId)
      ensures old(SingleFlight()) ==> SingleFlight()
    {
      connected := false;
      instance := None;
      if shouldReconnect {
        pending := pending + [reconnectDelay];
      }
    }

    /** The error event: only the error text changes. */
    method OnError()
      requires Valid()
      modifies this
      ensures Valid()
      ensures error == Some(SocketErrorText)
      ensures instance == old(instance) && connected == old(connected) && response == old(response)
      ensures shouldReconnect == old(shouldReconnect) && pending == old(pending)
      ensures transport == old(transport) && nextId == old(nextId)
    {
      error := Some(SocketErrorText);
    }

    /**
     * The oldest scheduled retry fires and runs `connectWebSocket`, guarded by
     * the current `shouldReconnect` (not the value the timer's closure captured).
     */
    method FireRetry(failure: Option<string>)
      requires Valid()
      requires pending != []
      modifies this
      ensures Valid()
      ensures !old(shouldReconnect) ==>
        && pending == old(pending)[1..]
        && instance == old(instance) && error == old(error)
        && transport == old(transport) && nextId == old(nextId)
      ensures old(shouldReconnect) && failure.None? ==>
        && pending == old(pending)[1..]
        && instance == Some(Socket(old(nextId), url, Connecting))
        && transport == old(transport) + [Created(old(nextId), url)]
        && nextId == old(nextId) + 1 && error == old(error)
      ensures old(shouldReconnect) && failure.Some? ==>
        && pending == old(pending)[1..] + [reconnectDelay]
        && error == Some(ConnectionErrorPrefix + failure.value)
        && instance == old(instance) && transport == old(transport) && nextId == old(nextId)
      ensures connected == old(connected) && response == old(response) && shouldReconnect == old(shouldReconnect)
      ensures old(SingleFlight()) ==> SingleFlight()
    {
      pending := pending[1..];
      Connect(failure);
    }

    /**
     * `reconnect`: close the current socket if it is OPEN, turn reconnecting
     * on, and connect at once. A close is always requested before the new
     * socket is created.
     */
    method Reconnect(failure: Option<string>)
      requires Valid()
      modifies this
      ensures Valid() && shouldReconnect
      ensures var wasOpen := old(instance).Some? && old(instance).value.readyState == Open;
        var closing := if wasOpen then [CloseRequested(old(instance).value.id)] else [];
        match failure
        case None =>
          && transport == old(transport) + closing + [Created(old(nextId), url)]
          && instance == Some(Socket(old(nextId), url, Connecting))
          && nextId == old(nextId) + 1 && pending == old(pending) && error == old(error)
        case Some(reason) =>
          && transport == old(transport) + closing
          && instance == (if wasOpen then Some(old(instance).value.(readyState := Closing)) else old(instance))
          && nextId == old(nextId) && pending == old(pending) + [reconnectDelay]
          && error == Some(ConnectionErrorPrefix + reason)
      ensures connected == old(connected) && response == old(response)
      // a manual reconnect during the retry delay leaves a socket AND a pending retry
      ensures old(instance).None? && |old(pending)| == 1 && failure.None? ==> !SingleFlight()
    {
      if instance.Some? && instance.value.readyState == Open {
        transport := transport + [CloseRequested(instance.value.id)];
        instance := Some(CloseSocket(instance.value));
      }
      shouldReconnect := true;
      Connect(failure);
    }

    /**
     * `sendMessage`: transmit `message` on the current socket when it exists,
     * is OPEN and the message is non-empty; otherwise record why and transmit
     * nothing.
     */
    method SendMessage(message: string) returns (ok: bool)
      requires Valid()
      modifies this
      ensures Valid()
      ensures ok <==> old(instance).Some? && old(instance).value.readyState == Open && message != ""
      ensures SendEffect(message)
    {
      match SendRefusal(instance, message)
      case None =>
        transport := transport + [Transmitted(instance.value.id, message)];
        ok := true;
      case Some(reason) =>
        error := Some(SendErrorPrefix + reason);
        ok := false;
    }

    /** The unmount cleanup: stop reconnecting and close the current socket, if any. */
    method Unmount()
      requires Valid()
      modifies this
      ensures Valid() && !shouldReconnect
      ensures old(instance).Some? ==>
        && instance == Some(CloseSocket(old(instance).value))
        && transport == old(transport) + [CloseRequested(old(instance).value.id)]
      ensures old(instance).None? ==> instance.None? && transport == old(transport)
      ensures connected == old(connected) && response == old(response) && error == old(error)
      ensures pending == old(pending) && nextId == old(nextId)
      ensures old(SingleFlight()) ==> SingleFlight()
    {
      shouldReconnect := false;
      if instance.Some? {
        transport := transport + [CloseRequested(instance.value.id)];
        instance := Some(CloseSocket(instance.value));
      }
    }
  }

  /**
   * A manual reconnect on an open socket asks the old socket to close before
   * it creates the new one. `connected` stays true until a close event
   * arrives, so a send made in between is refused as "not connected".
   */
  method ReconnectWhileOpen(url: string)
    returns (transport: seq<TransportAction>, stillConnected: bool, sent: bool, error: Option<string>)
    ensures transport == [Created(0, url), CloseRequested(0), Created(1, url)]
    ensures stillConnected && !sent
    ensures error == Some(SendErrorPrefix + NotConnected)
  {
    var client := new Client(url, None);
    client.Connect(None);
    client.OnOpen();
    client.Reconnect(None);
    transport, stillConnected := client.transport, client.connected;
    sent := client.SendMessage("status");
    error := client.error;
  }

  /**
   * A manual reconnect made while a retry is pending: when the retry fires it
   * creates a second socket and drops the first without closing it.
   */
  method RetryAfterManualReconnect(url: string) returns (transport: seq<TransportAction>)
    ensures transport == [Created(0, url), Created(1, url), Created(2, url)]
  {
    var client := new Client(url, None);
    client.Connect(None);
    client.OnOpen();
    client.OnClose();
    client.Reconnect(None);
    client.FireRetry(None);
    transport := client.transport;
  }

  /**
   * In this model every handler reads the provider's current `shouldReconnect`,
   * so a retry scheduled by a close before unmount fires after it and creates
   * no socket. The source's timer runs a closure that captured the flag as
   * true, so there it does create one.
   */
  method UnmountStopsRetries(url: string) returns (transport: seq<TransportAction>, pending: seq<nat>)
    ensures transport == [Created(0, url)]
    ensures pending == []
  {
    var client := new Client(url, None);
    client.Connect(None);
    client.OnClose();
    client.Unmount();
    client.FireRetry(None);
    transport, pending := client.transport, client.pending;
  }

  /** `useWebSocket`: the provider's client, or the error it throws outside a provider. */
  function UseChannel(context: Option<Client>): (r: Result<Client, string>)
    ensures r.Ok? <==> context.Some?
    ensures r.Ok? ==> r.value == context.value
    ensures r.Err? ==> r.error == OutsideProvider
  {
    match context
    case Some(client) => Ok(client)
    case None => Err(OutsideProvider)
  }
}
