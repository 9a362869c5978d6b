/** The Go gateway's connection pool: every connection by id, vehicle
    connections by vehicle id, and client connections by id, together with
    the heartbeat expiry sweep. Sockets are abstract: a connection records
    the frames written to it and how many times its socket was closed; the
    vehicle-list notification is counted, its callback left out. */
module ConnectionPool {
  import opened Wrappers
  import opened MessageTypes

  type Bytes = seq<bv8>

  class Connection {
    const id: string
    var vehicleId: string
    var connType: ConnType
    /** `LastHeartbeat`, in clock units. */
    var lastHeartbeat: int
    var closed: bool
    /** Frames written to the socket, and the number of `WS.Close` calls. */
    var sent: seq<Bytes>
    var socketCloses: nat

    constructor (id: string, vehicleId: string, connType: ConnType, now: int)
      ensures this.id == id && this.vehicleId == vehicleId && this.connType == connType
      ensures lastHeartbeat == now && !closed && sent == [] && socketCloses == 0
    {
      this.id := id;
      this.vehicleId := vehicleId;
      this.connType := connType;
      lastHeartbeat := now;
      closed := false;
      sent := [];
      socketCloses := 0;
    }

    /** `Send`: fails on a closed connection; otherwise returns what the
        socket's `WriteMessage` returns. That outcome is the parameter
        `writeErr`: `None` for a frame written, `Some(e)` for a failed
        write, which records nothing. */
    method Send(data: Bytes, writeErr: Option<string>) returns (err: Option<string>)
      modifies this`sent
      ensures closed ==> err == Some("连接已关闭: " + id) && sent == old(sent)
      ensures !closed ==> err == writeErr
      ensures !closed && writeErr.None? ==> sent == old(sent) + [data]
      ensures !closed && writeErr.Some? ==> sent == old(sent)
    {
      if closed {
        return Some("连接已关闭: " + id);
      }
      if writeErr.None? {
        sent := sent + [data];
      }
      err := writeErr;
    }

    /** `Close`: idempotent; only the first call closes the socket. */
    method Close()
      modifies this`closed, this`socketCloses
      ensures closed
      ensures socketCloses == old(socketCloses) + (if old(closed) then 0 else 1)
    {
      if closed {
        return;
      }
      closed := true;
      socketCloses := socketCloses + 1;
    }

    /** `IsClosed`: true once `Close` has run; then `Send` fails. */
    function IsClosed(): (isClosed: bool)
      reads this
      ensures isClosed <==> closed
    {
      closed
    }
  }

  datatype PoolStats = PoolStats(vehicleCount: nat, clientCount: nat, totalCount: nat, checkInterval: int, timeout: int)

  /** `now.Sub(LastHeartbeat) > heartbeatTimeout`: strictly older than the timeout. */
  predicate HeartbeatExpired(lastHeartbeat: int, now: int, timeout: int) {
    now - lastHeartbeat > timeout
  }

  /** A heartbeat exactly `timeout` old is kept; one unit older expires. */
  lemma ExpiryIsStrict(lastHeartbeat: int, timeout: int)
    ensures !HeartbeatExpired(lastHeartbeat, lastHeartbeat + timeout, timeout)
    ensures HeartbeatExpired(lastHeartbeat, lastHeartbeat + timeout + 1, timeout)
  {
  }

  /** The vehicle ids whose connection's heartbeat has expired at `now`. */
  ghost function ExpiredVehicles(vehicles: map<string, Connection>, now: int, timeout: int): set<string>
    reads vehicles.Values
  {
    set k | k in vehicles && HeartbeatExpired(vehicles[k].lastHeartbeat, now, timeout)
  }

  /** The connection ids of the given vehicles. */
  ghost function ConnIds(vehicles: map<string, Connection>, keys: set<string>): set<string> {
    set k | k in keys && k in vehicles :: vehicles[k].id
  }

  lemma ConnIdsAdd(vehicles: map<string, Connection>, keys: set<string>, k: string)
    requires k in vehicles
    ensures ConnIds(vehicles, keys + {k}) == ConnIds(vehicles, keys) + {vehicles[k].id}
  {
  }

  /** One expired vehicle more: both dicts lose its entry. */
  lemma ExpireStep(v0: map<string, Connection>, c0: map<string, Connection>, removed: set<string>, k: string)
    requires k in v0
    ensures (v0 - removed) - {k} == v0 - (removed + {k})
    ensures (c0 - ConnIds(v0, removed)) - {v0[k].id} == c0 - ConnIds(v0, removed + {k})
  {
    ConnIdsAdd(v0, removed, k);
    assert (v0 - removed) - {k} == v0 - (removed + {k});
  }

  /** What the collecting loop of `checkTimeouts` keeps, over values: the
      vehicles seen so far (`v0` minus `remaining`) that expired are exactly
      `removed`; both maps have lost them; `timedOut` holds their
      connections, `keys[i]` being the vehicle id of `timedOut[i]`. */
  ghost predicate CollectInv(v0: map<string, Connection>, c0: map<string, Connection>, hb: map<string, int>,
                             now: int, timeout: int, remaining: set<string>, removed: set<string>,
                             keys: seq<string>, timedOut: seq<Connection>,
                             vehicles: map<string, Connection>, connections: map<string, Connection>)
  {
    && remaining <= v0.Keys && hb.Keys == v0.Keys
    && (forall k :: k in removed <==> k in v0 && k !in remaining && now - hb[k] > timeout)
    && vehicles == v0 - removed
    && connections == c0 - ConnIds(v0, removed)
    && |keys| == |timedOut|
    && (forall i :: 0 <= i < |keys| ==> keys[i] in removed && v0[keys[i]] == timedOut[i])
    && (forall k :: k in removed ==> v0[k] in timedOut)
    && (|timedOut| > 0 <==> removed != {})
  }

  /** The vehicle the collecting loop visits next is still in the map. */
  lemma CollectVisit(v0: map<string, Connection>, c0: map<string, Connection>, hb: map<string, int>,
                     now: int, timeout: int, remaining: set<string>, removed: set<string>,
                     keys: seq<string>, timedOut: seq<Connection>,
                     vehicles: map<string, Connection>, connections: map<string, Connection>, k: string)
    requires CollectInv(v0, c0, hb, now, timeout, remaining, removed, keys, timedOut, vehicles, connections)
    requires k in remaining
    ensures k in vehicles && vehicles[k] == v0[k]
  {
  }

  /** An expired vehicle is removed from both maps and collected. */
  lemma CollectExpire(v0: map<string, Connection>, c0: map<string, Connection>, hb: map<string, int>,
                      now: int, timeout: int, remaining: set<string>, removed: set<string>,
                      keys: seq<string>, timedOut: seq<Connection>,
                      vehicles: map<string, Connection>, connections: map<string, Connection>, k: string)
    requires CollectInv(v0, c0, hb, now, timeout, remaining, removed, keys, timedOut, vehicles, connections)
    requires k in remaining && now - hb[k] > timeout
    ensures CollectInv(v0, c0, hb, now, timeout, remaining - {k}, removed + {k}, keys + [k], timedOut + [v0[k]],
                       vehicles - {k}, connections - {v0[k].id})
  {
    ExpireStep(v0, c0, removed, k);
    var keys', timedOut' := keys + [k], timedOut + [v0[k]];
    forall i | 0 <= i < |keys'|
      ensures keys'[i] in removed + {k} && v0[keys'[i]] == timedOut'[i]
    {
      if i < |keys| {
        assert keys'[i] == keys[i] && timedOut'[i] == timedOut[i];
      }
    }
  }

  /** A live vehicle is only marked visited. */
  lemma CollectKeep(v0: map<string, Connection>, c0: map<string, Connection>, hb: map<string, int>,
                    now: int, timeout: int, remaining: set<string>, removed: set<string>,
                    keys: seq<string>, timedOut: seq<Connection>,
                    vehicles: map<string, Connection>, connections: map<string, Connection>, k: string)
    requires CollectInv(v0, c0, hb, now, timeout, remaining, removed, keys, timedOut, vehicles, connections)
    requires k in remaining && !(now - hb[k] > timeout)
    ensures CollectInv(v0, c0, hb, now, timeout, remaining - {k}, removed, keys, timedOut, vehicles, connections)
  {
  }

  /** When the collecting loop has visited every vehicle, `removed` is the
      set of expired ids and `timedOut` holds exactly their connections. */
  lemma CollectDone(v0: map<string, Connection>, c0: map<string, Connection>, hb: map<string, int>,
                    now: int, timeout: int, removed: set<string>,
                    keys: seq<string>, timedOut: seq<Connection>,
                    vehicles: map<string, Connection>, connections: map<string, Connection>)
    requires CollectInv(v0, c0, hb, now, timeout, {}, removed, keys, timedOut, vehicles, connections)
    requires forall k :: k in v0 ==> hb[k] == v0[k].lastHeartbeat
    ensures removed == ExpiredVehicles(v0, now, timeout)
    ensures vehicles == v0 - ExpiredVehicles(v0, now, timeout)
    ensures connections == c0 - ConnIds(v0, ExpiredVehicles(v0, now, timeout))
    ensures forall c :: c in timedOut ==>
      exists k :: k in ExpiredVehicles(v0, now, timeout) && v0[k] == c
    ensures forall c :: c in timedOut ==> HeartbeatExpired(c.lastHeartbeat, now, timeout)
    ensures forall k :: k in ExpiredVehicles(v0, now, timeout) ==> v0[k] in timedOut
    ensures |timedOut| > 0 <==> ExpiredVehicles(v0, now, timeout) != {}
  {
    assert removed == ExpiredVehicles(v0, now, timeout);
    forall c | c in timedOut
      ensures exists k :: k in removed && v0[k] == c
      ensures HeartbeatExpired(c.lastHeartbeat, now, timeout)
    {
      var i :| 0 <= i < |timedOut| && timedOut[i] == c;
      assert keys[i] in removed && v0[keys[i]] == c;
    }
  }

  /** Whether a connection goes into `vehicles` when added. */
  function GoesToVehicles(connType: ConnType, vehicleId: string): bool {
    connType == ConnTypeVehicle && vehicleId != ""
  }

  /** `VehicleInfo{vehicleID, vehicleID, true}`: the Go pool names a vehicle by its id. */
  function InfoFor(vehicleId: string): VehicleInfo {
    VehicleInfo(vehicleId, vehicleId, true)
  }

  class Pool {
    var vehicles: map<string, Connection>
    var connections: map<string, Connection>
    var clients: map<string, Connection>
    const checkInterval: int
    const timeout: int
    /** Calls of `notifyVehicleListChanged`. */
    var notifications: nat

    /** `NewPool`: three empty maps. */
    constructor (checkInterval: int, timeout: int)
      ensures vehicles == map[] && connections == map[] && clients == map[]
      ensures this.checkInterval == checkInterval && this.timeout == timeout
      ensures notifications == 0
    {
      vehicles := map[];
      connections := map[];
      clients := map[];
      this.checkInterval := checkInterval;
      this.timeout := timeout;
      notifications := 0;
    }

    /** `AddConnection`: a duplicate id is refused with everything unchanged;
        otherwise the connection is indexed by id, and by vehicle id or as a
        client according to its type. */
    method AddConnection(conn: Connection) returns (err: Option<string>)
      modifies this
      ensures conn.id in old(connections) ==>
        err == Some("连接已存在: " + conn.id)
        && connections == old(connections) && vehicles == old(vehicles) && clients == old(clients)
        && notifications == old(notifications)
      ensures conn.id !in old(connections) ==>
        err == None
        && connections == old(connections)[conn.id := conn]
        && vehicles == (if GoesToVehicles(conn.connType, conn.vehicleId) then old(vehicles)[conn.vehicleId := conn] else old(vehicles))
        && clients == (if !GoesToVehicles(conn.connType, conn.vehicleId) && conn.connType == ConnTypeClient
                       then old(clients)[conn.id := conn] else old(clients))
        && notifications == old(notifications) + (if GoesToVehicles(conn.connType, conn.vehicleId) then 1 else 0)
    {
      if conn.id in connections {
        return Some("连接已存在: " + conn.id);
      }
      connections := connections[conn.id := conn];
      if conn.connType == ConnTypeVehicle && conn.vehicleId != "" {
        vehicles := vehicles[conn.vehicleId := conn];
        notifications := notifications + 1;
      } else if conn.connType == ConnTypeClient {
        clients := clients[conn.id := conn];
      }
      err := None;
    }

    /** `RemoveConnection`: an unknown id changes nothing; a known one leaves
        `connections`, and `vehicles` (for a vehicle with an id, which is
        also notified) or else `clients`. */
    method RemoveConnection(connId: string)
      modifies this
      ensures connId !in old(connections) ==>
        connections == old(connections) && vehicles == old(vehicles) && clients == old(clients)
        && notifications == old(notifications)
      ensures connId in old(connections) ==>
        var conn := old(connections)[connId];
        var isVehicle := GoesToVehicles(conn.connType, conn.vehicleId);
        connections == old(connections) - {connId}
        && vehicles == (if isVehicle then old(vehicles) - {conn.vehicleId} else old(vehicles))
        && clients == (if isVehicle then old(clients) else old(clients) - {connId})
        && notifications == old(notifications) + (if isVehicle then 1 else 0)
    {
      if connId in connections {
        var conn := connections[connId];
        var isVehicle := conn.connType == ConnTypeVehicle && conn.vehicleId != "";
        connections := connections - {connId};
        if isVehicle {
          vehicles := vehicles - {conn.vehicleId};
          notifications := notifications + 1;
        } else {
          clients := clients - {connId};
        }
      }
    }

    /** `RemoveConnection` as intended: the vehicle entry is deleted only
        while it still holds this connection, so a vehicle that has
        reconnected on a newer connection keeps its entry. */
    method RemoveConnectionCorrected(connId: string)
      modifies this
      ensures connId !in old(connections) ==>
        connections == old(connections) && vehicles == old(vehicles) && clients == old(clients)
        && notifications == old(notifications)
      ensures connId in old(connections) ==>
        var conn := old(connections)[connId];
        var isVehicle := GoesToVehicles(conn.connType, conn.vehicleId);
        var owns := isVehicle && conn.vehicleId in old(vehicles) && old(vehicles)[conn.vehicleId] == conn;
        connections == old(connections) - {connId}
        && vehicles == (if owns then old(vehicles) - {conn.vehicleId} else old(vehicles))
        && clients == (if isVehicle then old(clients) else old(clients) - {connId})
        && notifications == old(notifications) + (if isVehicle then 1 else 0)
      ensures connId in old(connections) ==>
        forall k :: k in old(vehicles) && old(vehicles)[k] != old(connections)[connId] ==>
          k in vehicles && vehicles[k] == old(vehicles)[k]
    {
      if connId in connections {
        var conn := connections[connId];
        var isVehicle := conn.connType == ConnTypeVehicle && conn.vehicleId != "";
        connections := connections - {connId};
        if isVehicle {
          if conn.vehicleId in vehicles && vehicles[conn.vehicleId] == conn {
            vehicles := vehicles - {conn.vehicleId};
          }
          notifications := notifications + 1;
        } else {
          clients := clients - {connId};
        }
      }
    }

    /** `RegisterVehicle`: nothing if its vehicle id is already taken;
        otherwise it moves from the clients to the vehicles. */
    method RegisterVehicle(conn: Connection)
      modifies this
      ensures conn.vehicleId in old(vehicles) ==>
        vehicles == old(vehicles) && clients == old(clients) && notifications == old(notifications)
      ensures conn.vehicleId !in old(vehicles) ==>
        vehicles == old(vehicles)[conn.vehicleId := conn]
        && clients == old(clients) - {conn.id}
        && notifications == old(notifications) + 1
      ensures connections == old(connections)
    {
      if conn.vehicleId in vehicles {
        return;
      }
      clients := clients - {conn.id};
      vehicles := vehicles[conn.vehicleId := conn];
      notifications := notifications + 1;
    }

    /** The connection `UpdateHeartbeat(vehicleId)` touches, if any. */
    ghost function VehicleFrame(vehicleId: string): set<Connection>
      reads this
    {
      if vehicleId in vehicles then {vehicles[vehicleId]} else {}
    }

    /** `UpdateHeartbeat`: refreshes an existing vehicle's heartbeat and
        nothing else; an unknown id is a no-op. */
    method UpdateHeartbeat(vehicleId: string, now: int)
      modifies VehicleFrame(vehicleId)`lastHeartbeat
      ensures vehicleId in vehicles ==> vehicles[vehicleId].lastHeartbeat == now
    {
      if vehicleId in vehicles {
        vehicles[vehicleId].lastHeartbeat := now;
      }
    }

    /** `GetVehicleList`: one entry per vehicle id, in map order. */
    method GetVehicleList() returns (list: seq<VehicleInfo>)
      ensures |list| == |vehicles|
      ensures forall i :: 0 <= i < |list| ==> list[i] == InfoFor(list[i].vehicleId) && list[i].vehicleId in vehicles
      ensures forall k :: k in vehicles ==> exists i :: 0 <= i < |list| && list[i] == InfoFor(k)
      ensures forall i, j :: 0 <= i < j < |list| ==> list[i].vehicleId != list[j].vehicleId
    {
      var remaining := vehicles.Keys;
      list := [];
      while remaining != {}
        invariant remaining <= vehicles.Keys
        invariant |list| + |remaining| == |vehicles|
        invariant forall i :: 0 <= i < |list| ==> list[i] == InfoFor(list[i].vehicleId)
        invariant forall i :: 0 <= i < |list| ==> list[i].vehicleId in vehicles && list[i].vehicleId !in remaining
        invariant forall k :: k in vehicles && k !in remaining ==> exists i :: 0 <= i < |list| && list[i] == InfoFor(k)
        invariant forall i, j :: 0 <= i < j < |list| ==> list[i].vehicleId != list[j].vehicleId
        decreases |remaining|
      {
        var vehicleId :| vehicleId in remaining;
        var info := InfoFor(vehicleId);
        assert forall i :: 0 <= i < |list| ==> (list + [info])[i] == list[i];
        assert (list + [info])[|list|] == info;
        list := list + [info];
        remaining := remaining - {vehicleId};
      }
    }

    /** `RouteToVehicle`: an absent vehicle or a closed connection is an
        error; otherwise the frame is sent on the vehicle's connection and
        the socket write's outcome `writeErr` is passed on. */
    method RouteToVehicle(vehicleId: string, data: Bytes, writeErr: Option<string>) returns (err: Option<string>)
      modifies VehicleFrame(vehicleId)`sent
      ensures vehicleId !in vehicles ==> err == Some("车辆未连接: " + vehicleId)
      ensures vehicleId in vehicles && vehicles[vehicleId].closed ==>
        err == Some("车辆连接已关闭: " + vehicleId) && vehicles[vehicleId].sent == old(vehicles[vehicleId].sent)
      ensures vehicleId in vehicles && !vehicles[vehicleId].closed ==>
        err == writeErr
        && vehicles[vehicleId].sent == old(vehicles[vehicleId].sent) + (if writeErr.None? then [data] else [])
    {
      if vehicleId !in vehicles {
        return Some("车辆未连接: " + vehicleId);
      }
      var conn := vehicles[vehicleId];
      if conn.IsClosed() {
        return Some("车辆连接已关闭: " + vehicleId);
      }
      err := conn.Send(data, writeErr);
    }

    /** `GetStats`: the sizes of the three maps and the two durations. */
    method GetStats() returns (stats: PoolStats)
      ensures stats == PoolStats(|vehicles|, |clients|, |connections|, checkInterval, timeout)
    {
      stats := PoolStats(|vehicles|, |clients|, |connections|, checkInterval, timeout);
    }

    /** The first phase of `checkTimeouts`, under the lock: walk the
        vehicles, deleting each expired one from `vehicles` and its
        connection from `connections`, and collect the connections. */
    method CollectExpired(now: int) returns (timedOut: seq<Connection>)
      modifies this`vehicles, this`connections
      ensures vehicles == old(vehicles) - ExpiredVehicles(old(vehicles), now, timeout)
      ensures connections == old(connections) - ConnIds(old(vehicles), ExpiredVehicles(old(vehicles), now, timeout))
      ensures forall c :: c in timedOut ==>
        exists k :: k in ExpiredVehicles(old(vehicles), now, timeout) && old(vehicles)[k] == c
      ensures forall c :: c in timedOut ==> HeartbeatExpired(c.lastHeartbeat, now, timeout)
      ensures forall k :: k in ExpiredVehicles(old(vehicles), now, timeout) ==> old(vehicles)[k] in timedOut
      ensures |timedOut| > 0 <==> ExpiredVehicles(old(vehicles), now, timeout) != {}
    {
      ghost var v0 := vehicles;
      ghost var c0 := connections;
      ghost var hb := map k | k in v0 :: v0[k].lastHeartbeat;
      var vs, cs := vehicles, connections;
      var remaining := vs.Keys;
      timedOut := [];
      ghost var removed: set<string> := {};
      ghost var keys: seq<string> := [];
      while remaining != {}
        invariant CollectInv(v0, c0, hb, now, timeout, remaining, removed, keys, timedOut, vs, cs)
        decreases |remaining|
      {
        var vehicleId :| vehicleId in remaining;
        CollectVisit(v0, c0, hb, now, timeout, remaining, removed, keys, timedOut, vs, cs, vehicleId);
        var conn := vs[vehicleId];
        assert conn.lastHeartbeat == hb[vehicleId];
        if now - conn.lastHeartbeat > timeout {
          CollectExpire(v0, c0, hb, now, timeout, remaining, removed, keys, timedOut, vs, cs, vehicleId);
          vs := vs - {vehicleId};
          cs := cs - {conn.id};
          timedOut := timedOut + [conn];
          keys := keys + [vehicleId];
          removed := removed + {vehicleId};
        } else {
          CollectKeep(v0, c0, hb, now, timeout, remaining, removed, keys, timedOut, vs, cs, vehicleId);
        }
        remaining := remaining - {vehicleId};
      }
      vehicles, connections := vs, cs;
      CollectDone(v0, c0, hb, now, timeout, removed, keys, timedOut, vs, cs);
    }

    /** A connection of the vehicle map is collected by the sweep exactly
        when its own heartbeat has expired. */
    static lemma ExpiredConnection(vehicles: map<string, Connection>, now: int, timeout: int, c: Connection)
      requires c in vehicles.Values
      ensures HeartbeatExpired(c.lastHeartbeat, now, timeout) <==>
        exists k :: k in ExpiredVehicles(vehicles, now, timeout) && vehicles[k] == c
    {
      var k :| k in vehicles && vehicles[k] == c;
      if HeartbeatExpired(c.lastHeartbeat, now, timeout) {
        assert k in ExpiredVehicles(vehicles, now, timeout);
      }
    }

    /** `checkTimeouts`: removes exactly the expired vehicles from `vehicles`,
        and their connections from `connections`; leaves `clients` alone;
        closes every removed connection; notifies iff something expired. */
    method CheckTimeouts(now: int)
      modifies this, vehicles.Values
      ensures vehicles == old(vehicles) - old(ExpiredVehicles(vehicles, now, timeout))
      ensures connections == old(connections) - ConnIds(old(vehicles), old(ExpiredVehicles(vehicles, now, timeout)))
      ensures clients == old(clients)
      ensures forall k :: k in old(ExpiredVehicles(vehicles, now, timeout)) ==> old(vehicles)[k].closed
      ensures forall c :: c in old(vehicles).Values ==>
        c.lastHeartbeat == old(c.lastHeartbeat) && c.sent == old(c.sent)
        && c.closed == (old(c.closed) || HeartbeatExpired(old(c.lastHeartbeat), now, timeout))
        && c.socketCloses == old(c.socketCloses)
             + (if HeartbeatExpired(old(c.lastHeartbeat), now, timeout) && !old(c.closed) then 1 else 0)
      ensures notifications == old(notifications) + (if old(ExpiredVehicles(vehicles, now, timeout)) == {} then 0 else 1)
    {
      ghost var v0 := vehicles;
      var timedOut := CollectExpired(now);
      forall c | c in v0.Values
        ensures c in timedOut <==> HeartbeatExpired(c.lastHeartbeat, now, timeout)
      {
        ExpiredConnection(v0, now, timeout, c);
      }
      var needNotify := |timedOut| > 0;
      CloseAll(timedOut);
      if needNotify {
        notifications := notifications + 1;
      }
    }

    /** The second phase of the sweep: close each collected connection. */
    static method CloseAll(conns: seq<Connection>)
      modifies set c | c in conns
      ensures forall c :: c in conns ==>
        c.closed && c.lastHeartbeat == old(c.lastHeartbeat) && c.sent == old(c.sent)
        && c.socketCloses == old(c.socketCloses) + (if old(c.closed) then 0 else 1)
    {
      for i := 0 to |conns|
        invariant forall c :: c in conns ==> c.closed == (old(c.closed) || c in conns[..i])
        invariant forall c :: c in conns ==>
          c.lastHeartbeat == old(c.lastHeartbeat) && c.sent == old(c.sent)
          && c.socketCloses == old(c.socketCloses) + (if c.closed && !old(c.closed) then 1 else 0)
      {
        assert conns[..i + 1] == conns[..i] + [conns[i]];
        conns[i].Close();
      }
      assert conns[..|conns|] == conns;
    }
  }

  /** The stale-owner defect: a vehicle reconnects on a new connection
      before its old one is removed. Removing the old connection deletes the
      vehicle's entry although the new connection is still in the pool, so
      the vehicle can no longer be routed to. */
  method StaleOwnerAsWritten() returns (newStillPooled: bool, vehicleLost: bool)
    ensures newStillPooled && vehicleLost
  {
    var p := new Pool(30, 60);
    var old1 := new Connection("c1", "vehicle-001", ConnTypeVehicle, 0);
    var new2 := new Connection("c2", "vehicle-001", ConnTypeVehicle, 5);
    var e1 := p.AddConnection(old1);
    var e2 := p.AddConnection(new2);
    assert p.vehicles == map["vehicle-001" := new2];
    p.RemoveConnection("c1");
    newStillPooled := "c2" in p.connections && p.connections["c2"] == new2;
    vehicleLost := "vehicle-001" !in p.vehicles;
  }

  /** The same sequence against the corrected removal: the vehicle stays
      routed to its newer connection. */
  method StaleOwnerCorrected() returns (kept: bool)
    ensures kept
  {
    var p := new Pool(30, 60);
    var old1 := new Connection("c1", "vehicle-001", ConnTypeVehicle, 0);
    var new2 := new Connection("c2", "vehicle-001", ConnTypeVehicle, 5);
    var e1 := p.AddConnection(old1);
    var e2 := p.AddConnection(new2);
    assert p.vehicles == map["vehicle-001" := new2];
    p.RemoveConnectionCorrected("c1");
    kept := "vehicle-001" in p.vehicles && p.vehicles["vehicle-001"] == new2;
  }

  /** A vehicle whose heartbeat is exactly `timeout` old survives the sweep;
      one unit later it is removed and its connection closed, while a client
      connection is untouched by both sweeps. */
  method SweepScenario() returns (keptAtLimit: bool, removedLater: bool, closedLater: bool, clientKept: bool)
    ensures keptAtLimit && removedLater && closedLater && clientKept
  {
    var p := new Pool(30, 60);
    var v := new Connection("c1", "vehicle-001", ConnTypeVehicle, 100);
    var c := new Connection("c2", "", ConnTypeClient, 0);
    var e1 := p.AddConnection(v);
    var e2 := p.AddConnection(c);
    assert p.vehicles == map["vehicle-001" := v];
    assert ExpiredVehicles(p.vehicles, 160, 60) == {};
    p.CheckTimeouts(160);
    keptAtLimit := "vehicle-001" in p.vehicles;
    assert ExpiredVehicles(p.vehicles, 161, 60) == {"vehicle-001"};
    assert ConnIds(p.vehicles, {"vehicle-001"}) == {"c1"};
    p.CheckTimeouts(161);
    removedLater := "vehicle-001" !in p.vehicles && "c1" !in p.connections;
    closedLater := v.closed;
    clientKept := "c2" in p.clients && "c2" in p.connections;
  }
}
