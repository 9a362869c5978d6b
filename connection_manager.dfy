/** The vehicle's client connection to the cloud gateway: the reconnect
    back-off of the connect loop, the `running` flag the WebSocket callbacks
    keep, the message-handler registry and its dispatch, and the gated,
    stamped `send`. Handlers and callbacks are opaque ids; every WebSocket
    frame sent and every handler or callback invoked is recorded. Clock
    readings are parameters. */
module ConnectionManager {
  import opened Wrappers
  import opened MessageTypes
  import opened VehicleNaming

  const InitialDelay: int := 1
  const MaxDelay: int := 60
  const HeartbeatPeriod: int := 30

  type HandlerId = nat
  type CallbackId = nat

  /** A JSON object as a Python dict. */
  type Dict = map<string, Value>

  datatype CallbackCall =
    | ConnectCalled(callback: CallbackId)
    | DisconnectCalled(callback: CallbackId)
    | ErrorCalled(callback: CallbackId, error: string)

  datatype HandlerCall = HandlerCall(handler: HandlerId, data: Dict)

  // ---------------------------------------------------------------------
  // Reconnect back-off

  function Min(a: int, b: int): int { if a <= b then a else b }

  function Pow2(n: nat): (p: nat)
    ensures p >= 1
  {
    if n == 0 then 1 else 2 * Pow2(n - 1)
  }

  /** The delay after `n` consecutive failed connections: each disconnect
      doubles it, capped at 60. */
  function DelayAfter(n: nat): int {
    if n == 0 then InitialDelay else Min(DelayAfter(n - 1) * 2, MaxDelay)
  }

  /** The back-off in closed form: `min(2^n, 60)`, always within [1, 60]. */
  lemma {:induction false} DelayAfterClosedForm(n: nat)
    ensures DelayAfter(n) == Min(Pow2(n), MaxDelay)
    ensures InitialDelay <= DelayAfter(n) <= MaxDelay
  {
    if n > 0 {
      DelayAfterClosedForm(n - 1);
    }
  }

  /** The waits of the first seven reconnects. */
  lemma BackoffPrefix()
    ensures [DelayAfter(0), DelayAfter(1), DelayAfter(2), DelayAfter(3), DelayAfter(4), DelayAfter(5), DelayAfter(6)]
         == [1, 2, 4, 8, 16, 32, 60]
  {
  }

  // ---------------------------------------------------------------------
  // Outgoing messages

  /** `{"type": t, "data": d}`, the shape every `send_*` helper builds. */
  function Outgoing(msgType: string, data: Dict): (m: Dict)
    ensures m.Keys == {"type", "data"}
    ensures m["type"] == Str(msgType) && m["data"] == Obj(data)
  {
    map["type" := Str(msgType), "data" := Obj(data)]
  }

  /** The stamping in `send`: the message gains (or has overwritten) its
      `vehicle_id` and `timestamp` keys; every other key is kept. */
  function Stamp(message: Dict, vehicleId: string, now: int): (m: Dict)
    ensures m.Keys == message.Keys + {"vehicle_id", "timestamp"}
    ensures m["vehicle_id"] == Str(vehicleId) && m["timestamp"] == Num(now)
    ensures forall k :: k in message && k != "vehicle_id" && k != "timestamp" ==> m[k] == message[k]
  {
    message["vehicle_id" := Str(vehicleId)]["timestamp" := Num(now)]
  }

  /** The `data` of the register message: the id, the display name the
      gateway also shows for it, and the fixed capability summary. */
  function RegisterData(vehicleId: string): (d: Dict)
    requires '-' in vehicleId
    ensures d.Keys == {"vehicle_id", "name", "capabilities"}
    ensures d["vehicle_id"] == Str(vehicleId) && d["name"] == Str(DisplayName(vehicleId))
    ensures d["capabilities"].Obj? && d["capabilities"].fields.Keys == {"motion", "sensors", "vision"}
  {
    map[
      "vehicle_id" := Str(vehicleId),
      "name" := Str(DisplayName(vehicleId)),
      "capabilities" := Obj(map[
        "motion" := Bool(true),
        "sensors" := Arr([Str("ultrasonic"), Str("infrared"), Str("battery")]),
        "vision" := Bool(true)])]
  }

  class VehicleConnectionManager {
    const cloudUrl: string
    const vehicleId: string
    /** `self.ws is not None`: set by the first connect attempt and never
        cleared. */
    var wsCreated: bool
    var running: bool
    var reconnectDelay: int
    var handlers: map<string, HandlerId>
    var onConnect: Option<CallbackId>
    var onDisconnect: Option<CallbackId>
    var onError: Option<CallbackId>
    /** The frames written to the socket, as the dicts they encode. */
    var sent: seq<Dict>
    /** The waits of the connect loop, in seconds. */
    var sleeps: seq<int>
    var handlerCalls: seq<HandlerCall>
    var callbackCalls: seq<CallbackCall>

    ghost predicate Valid()
      reads this
    {
      InitialDelay <= reconnectDelay <= MaxDelay
    }

    constructor (cloudUrl: string, vehicleId: string)
      ensures Valid()
      ensures this.cloudUrl == cloudUrl && this.vehicleId == vehicleId
      ensures !wsCreated && !running && reconnectDelay == InitialDelay
      ensures handlers == map[] && onConnect.None? && onDisconnect.None? && onError.None?
      ensures sent == [] && sleeps == [] && handlerCalls == [] && callbackCalls == []
    {
      this.cloudUrl := cloudUrl;
      this.vehicleId := vehicleId;
      wsCreated := false;
      running := false;
      reconnectDelay := InitialDelay;
      handlers := map[];
      onConnect := None;
      onDisconnect := None;
      onError := None;
      sent := [];
      sleeps := [];
      handlerCalls := [];
      callbackCalls := [];
    }

    /** `register_handler`: a later registration for a type replaces the
        earlier one. */
    method RegisterHandler(msgType: string, handler: HandlerId)
      modifies this`handlers
      ensures handlers == old(handlers)[msgType := handler]
      ensures msgType in handlers && handlers[msgType] == handler
    {
      handlers := handlers[msgType := handler];
    }

    method SetCallbacks(onConnect: Option<CallbackId>, onDisconnect: Option<CallbackId>, onError: Option<CallbackId>)
      modifies this`onConnect, this`onDisconnect, this`onError
      ensures this.onConnect == onConnect && this.onDisconnect == onDisconnect && this.onError == onError
    {
      this.onConnect := onConnect;
      this.onDisconnect := onDisconnect;
      this.onError := onError;
    }

    /** `is_connected`: the `running` flag, set by `_on_open` and cleared by
        `_on_close` and by the end of the connect loop. */
    function IsConnected(): (connected: bool)
      reads this
      ensures connected <==> running
    {
      running
    }

    /** `send`: nothing leaves unless a socket exists and the connection is
        running; otherwise the message goes out stamped with the vehicle id
        and the current whole second. */
    method Send(message: Dict, now: int)
      modifies this`sent
      ensures wsCreated && running ==> sent == old(sent) + [Stamp(message, vehicleId, now)]
      ensures !(wsCreated && running) ==> sent == old(sent)
    {
      if wsCreated && running {
        var stamped := message["vehicle_id" := Str(vehicleId)];
        stamped := stamped["timestamp" := Num(now)];
        sent := sent + [stamped];
      }
    }

    method SendHeartbeat(now: int)
      modifies this`sent
      ensures wsCreated && running ==> sent == old(sent) + [Stamp(Outgoing("heartbeat", map[]), vehicleId, now)]
      ensures !(wsCreated && running) ==> sent == old(sent)
    {
      Send(Outgoing("heartbeat", map[]), now);
    }

    method SendExecutionStarted(executionId: string, now: int)
      modifies this`sent
      ensures wsCreated && running ==>
        sent == old(sent) + [Stamp(Outgoing("execution_started", map["execution_id" := Str(executionId)]), vehicleId, now)]
      ensures !(wsCreated && running) ==> sent == old(sent)
    {
      Send(Outgoing("execution_started", map["execution_id" := Str(executionId)]), now);
    }

    method SendExecutionFinished(executionId: string, now: int, success: bool := true)
      modifies this`sent
      ensures wsCreated && running ==>
        sent == old(sent) + [Stamp(Outgoing("execution_finished", map["execution_id" := Str(executionId), "success" := Bool(success)]), vehicleId, now)]
      ensures !(wsCreated && running) ==> sent == old(sent)
    {
      Send(Outgoing("execution_finished", map["execution_id" := Str(executionId), "success" := Bool(success)]), now);
    }

    method SendExecutionError(executionId: string, error: string, now: int)
      modifies this`sent
      ensures wsCreated && running ==>
        sent == old(sent) + [Stamp(Outgoing("execution_error", map["execution_id" := Str(executionId), "error" := Str(error)]), vehicleId, now)]
      ensures !(wsCreated && running) ==> sent == old(sent)
    {
      Send(Outgoing("execution_error", map["execution_id" := Str(executionId), "error" := Str(error)]), now);
    }

    method SendSensorUpdate(sensors: Dict, now: int)
      modifies this`sent
      ensures wsCreated && running ==>
        sent == old(sent) + [Stamp(Outgoing("sensor_update", map["sensors" := Obj(sensors)]), vehicleId, now)]
      ensures !(wsCreated && running) ==> sent == old(sent)
    {
      Send(Outgoing("sensor_update", map["sensors" := Obj(sensors)]), now);
    }

    method SendStatusUpdate(now: int, busy: bool := false)
      modifies this`sent
      ensures wsCreated && running ==>
        sent == old(sent) + [Stamp(Outgoing("status_update", map["busy" := Bool(busy)]), vehicleId, now)]
      ensures !(wsCreated && running) ==> sent == old(sent)
    {
      Send(Outgoing("status_update", map["busy" := Bool(busy)]), now);
    }

    /** The start of one connect-loop iteration: a new socket object. */
    method CreateSocket()
      modifies this`wsCreated
      ensures wsCreated
    {
      wsCreated := true;
    }

    /** `_on_open`: running again, the back-off reset, the register message
        sent, then the connect callback. An id without '-' makes the
        register message raise IndexError after the flag and the delay are
        set, and the callback is then skipped. */
    method OnOpen(now: int) returns (o: Outcome)
      requires Valid()
      modifies this`running, this`reconnectDelay, this`sent, this`callbackCalls
      ensures Valid()
      ensures running && reconnectDelay == InitialDelay
      ensures '-' !in vehicleId ==> o == Raised(IndexError) && sent == old(sent) && callbackCalls == old(callbackCalls)
      ensures '-' in vehicleId ==> o == Done
      ensures '-' in vehicleId && wsCreated ==>
        sent == old(sent) + [Stamp(Outgoing("register", RegisterData(vehicleId)), vehicleId, now)]
      ensures '-' in vehicleId && !wsCreated ==> sent == old(sent)
      ensures '-' in vehicleId ==>
        callbackCalls == old(callbackCalls) + (if onConnect.Some? then [ConnectCalled(onConnect.value)] else [])
    {
      running := true;
      reconnectDelay := InitialDelay;
      if '-' !in vehicleId {
        return Raised(IndexError);
      }
      Send(Outgoing("register", RegisterData(vehicleId)), now);
      if onConnect.Some? {
        callbackCalls := callbackCalls + [ConnectCalled(onConnect.value)];
      }
      o := Done;
    }

    /** `_on_message`: the handler registered for the message's `type` is
        called with the message; a frame that is not a JSON object, has no
        string type, or has a type with no handler calls nothing. */
    method OnMessage(frame: Option<Value>) returns (invoked: Option<HandlerId>)
      modifies this`handlerCalls
      ensures invoked.Some? <==>
        frame.Some? && frame.value.Obj? && "type" in frame.value.fields && frame.value.fields["type"].Str?
        && frame.value.fields["type"].s in handlers
      ensures invoked.Some? ==> (invoked.value == handlers[frame.value.fields["type"].s]
        && handlerCalls == old(handlerCalls) + [HandlerCall(invoked.value, frame.value.fields)])
      ensures invoked.None? ==> handlerCalls == old(handlerCalls)
    {
      if frame.None? || !frame.value.Obj? {
        return None;
      }
      var data := frame.value.fields;
      if "type" !in data || !data["type"].Str? || data["type"].s !in handlers {
        return None;
      }
      var handler := handlers[data["type"].s];
      handlerCalls := handlerCalls + [HandlerCall(handler, data)];
      invoked := Some(handler);
    }

    /** `_on_error`: the error callback, when set. */
    method OnError(error: string)
      modifies this`callbackCalls
      ensures callbackCalls == old(callbackCalls) + (if onError.Some? then [ErrorCalled(onError.value, error)] else [])
    {
      if onError.Some? {
        callbackCalls := callbackCalls + [ErrorCalled(onError.value, error)];
      }
    }

    /** `_on_close`. */
    method OnClose()
      modifies this`running
      ensures !running
    {
      running := false;
    }

    /** The end of one connect-loop iteration: not running, the disconnect
        callback, a wait of the current delay, and the delay doubled up to
        the cap. */
    method AfterDisconnect()
      requires Valid()
      modifies this`running, this`callbackCalls, this`sleeps, this`reconnectDelay
      ensures Valid()
      ensures !running
      ensures callbackCalls == old(callbackCalls) + (if onDisconnect.Some? then [DisconnectCalled(onDisconnect.value)] else [])
      ensures sleeps == old(sleeps) + [old(reconnectDelay)]
      ensures reconnectDelay == Min(old(reconnectDelay) * 2, MaxDelay)
    {
      running := false;
      if onDisconnect.Some? {
        callbackCalls := callbackCalls + [DisconnectCalled(onDisconnect.value)];
      }
      sleeps := sleeps + [reconnectDelay];
      reconnectDelay := Min(reconnectDelay * 2, MaxDelay);
    }

    /** One round of `_heartbeat_loop`: while running, send a heartbeat;
        the answer says whether the loop goes on. */
    method HeartbeatTick(now: int) returns (continues: bool)
      modifies this`sent
      ensures continues == running
      ensures continues && wsCreated ==> sent == old(sent) + [Stamp(Outgoing("heartbeat", map[]), vehicleId, now)]
      ensures !(continues && wsCreated) ==> sent == old(sent)
    {
      if !running {
        return false;
      }
      SendHeartbeat(now);
      continues := true;
    }
  }

  /** `n` connection attempts that each fail before opening: the loop waits
      1, 2, 4, … seconds, capped at 60, and the delay it will use next is
      `min(2^n, 60)`. */
  method FailedAttempts(m: VehicleConnectionManager, n: nat)
    requires m.Valid() && m.reconnectDelay == InitialDelay
    modifies m
    ensures m.Valid() && (n > 0 ==> !m.running)
    ensures m.reconnectDelay == Min(Pow2(n), MaxDelay)
    ensures |m.sleeps| == |old(m.sleeps)| + n
    ensures forall i :: 0 <= i < n ==> m.sleeps[|old(m.sleeps)| + i] == Min(Pow2(i), MaxDelay)
    ensures m.sent == old(m.sent)
  {
    for k := 0 to n
      invariant m.Valid()
      invariant m.reconnectDelay == DelayAfter(k)
      invariant |m.sleeps| == |old(m.sleeps)| + k
      invariant forall i :: 0 <= i < k ==> m.sleeps[|old(m.sleeps)| + i] == DelayAfter(i)
      invariant m.sent == old(m.sent)
      invariant k > 0 ==> !m.running
    {
      m.CreateSocket();
      m.AfterDisconnect();
    }
    DelayAfterClosedForm(n);
    forall i | 0 <= i < n
      ensures m.sleeps[|old(m.sleeps)| + i] == Min(Pow2(i), MaxDelay)
    {
      DelayAfterClosedForm(i);
    }
  }

  /** A handler registered for a type receives exactly the messages of
      that type; re-registering replaces it, and a message whose type has no
      handler reaches none. */
  method DispatchScenario() returns (first: Option<HandlerId>, second: Option<HandlerId>, unknown: Option<HandlerId>)
    ensures first == Some(1) && second == Some(2) && unknown == None
  {
    var m := new VehicleConnectionManager("ws://localhost:8080/ws", "vehicle-001");
    m.RegisterHandler("execute", 1);
    first := m.OnMessage(Some(Obj(map["type" := Str("execute")])));
    m.RegisterHandler("execute", 2);
    second := m.OnMessage(Some(Obj(map["type" := Str("execute")])));
    unknown := m.OnMessage(Some(Obj(map["type" := Str("stop")])));
  }

  /** Opening resets the back-off and sends the register frame; after a
      close, sends are dropped and the next wait is back at one second. */
  method SessionScenario(m: VehicleConnectionManager, now: int)
      returns (connectedWhileOpen: bool, framesWhileOpen: nat, connectedAfterClose: bool, framesAfterClose: nat, nextWait: int)
    requires m.Valid() && '-' in m.vehicleId && m.sent == []
    modifies m
    ensures connectedWhileOpen && framesWhileOpen == 2
    ensures !connectedAfterClose && framesAfterClose == 2 && nextWait == InitialDelay
  {
    m.CreateSocket();
    var o := m.OnOpen(now);
    m.SendStatusUpdate(now);
    connectedWhileOpen := m.IsConnected();
    framesWhileOpen := |m.sent|;
    m.OnClose();
    connectedAfterClose := m.IsConnected();
    m.SendHeartbeat(now + HeartbeatPeriod);
    framesAfterClose := |m.sent|;
    m.AfterDisconnect();
    nextWait := m.sleeps[|m.sleeps| - 1];
  }
}
