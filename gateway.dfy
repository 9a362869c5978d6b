/** The Python cloud gateway's vehicle connection pool: three dictionaries
    (vehicle id to session id, vehicle id to last heartbeat, session id to
    vehicle id), the Socket.IO handlers that mutate them, and the periodic
    heartbeat sweep. Every `sio.emit`/`sio.disconnect` is recorded as an
    event; clock readings are parameters. */
module Gateway {
  import opened Wrappers
  import Text
  import opened MessageTypes
  import opened VehicleNaming

  /** A vehicle is stale when its last heartbeat is more than this old. */
  const HeartbeatTimeout: int := 60

  /** What the pool sends through the Socket.IO server. */
  datatype Event =
    | VehicleListBroadcast(vehicles: seq<VehicleInfo>)
    | VehicleListTo(sid: string, vehicles: seq<VehicleInfo>)
    | MessageTo(sid: string, message: map<string, Value>)
    | RegisteredTo(sid: string, vehicleId: string)
    | PongTo(sid: string)
    | DisconnectRequest(sid: string)

  // ---------------------------------------------------------------------
  // Insertion order of a Python dict

  predicate Distinct(s: seq<string>) {
    forall i, j :: 0 <= i < j < |s| ==> s[i] != s[j]
  }

  /** The key order after `d[k] = v`: a new key goes last, an existing key
      keeps its place. */
  function Assigned(s: seq<string>, k: string): (r: seq<string>)
    ensures forall x :: x in r <==> x in s || x == k
    ensures Distinct(s) ==> Distinct(r)
    ensures k in s ==> r == s
  {
    if k in s then s else s + [k]
  }

  /** The key order after `del d[k]`: every other key keeps its relative
      place. */
  function Deleted(s: seq<string>, k: string): (r: seq<string>)
    ensures forall x :: x in r <==> x in s && x != k
    ensures Distinct(s) ==> Distinct(r)
    ensures |r| <= |s|
    ensures k !in s ==> r == s
  {
    if |s| == 0 then []
    else
      var rest := Deleted(s[1..], k);
      assert Distinct(s) ==> Distinct(s[1..]) && s[0] !in s[1..];
      if s[0] == k then rest else [s[0]] + rest
  }

  /** A duplicate-free order lists each of its keys exactly once, so it is
      as long as its key set is large. */
  lemma {:induction false} DistinctLength(s: seq<string>)
    requires Distinct(s)
    ensures |set x | x in s| == |s|
  {
    if |s| > 0 {
      DistinctLength(s[1..]);
      assert (set x | x in s) == (set x | x in s[1..]) + {s[0]};
      assert s[0] !in s[1..] by {
        forall j | 0 <= j < |s[1..]|
          ensures s[1..][j] != s[0]
        {
          assert s[1..][j] == s[j + 1];
        }
      }
    }
  }

  // ---------------------------------------------------------------------
  // get_vehicle_list

  /** The comprehension of `get_vehicle_list` over the keys in order: one
      online entry per key, or IndexError as soon as a key has no '-'. */
  function VehicleList(order: seq<string>): (r: Result<seq<VehicleInfo>, PyError>)
    ensures r.Ok? <==> forall i :: 0 <= i < |order| ==> '-' in order[i]
    ensures r.Err? ==> r.error == IndexError
    ensures r.Ok? ==> |r.value| == |order|
    ensures r.Ok? ==> forall i :: 0 <= i < |order| ==>
      r.value[i] == VehicleInfo(order[i], DisplayName(order[i]), true)
  {
    if |order| == 0 then Ok([])
    else if '-' !in order[0] then Err(IndexError)
    else
      match VehicleList(order[1..])
      case Err(e) => Err(e)
      case Ok(rest) =>
        assert forall i :: 1 <= i < |order| ==> order[i] == order[1..][i - 1];
        Ok([VehicleInfo(order[0], DisplayName(order[0]), true)] + rest)
  }

  /** The list over a duplicate-free order of a key set: it exists iff every
      key has a '-', and it then lists each key once, online. */
  lemma VehicleListOfKeys(order: seq<string>, keys: set<string>)
    requires Distinct(order)
    requires forall k :: k in order <==> k in keys
    ensures VehicleList(order).Ok? <==> forall k :: k in keys ==> '-' in k
    ensures VehicleList(order).Ok? ==> |VehicleList(order).value| == |keys|
    ensures VehicleList(order).Ok? ==> forall k :: k in keys <==>
      exists i :: 0 <= i < |VehicleList(order).value| && VehicleList(order).value[i].vehicleId == k
    ensures VehicleList(order).Ok? ==> forall i :: 0 <= i < |VehicleList(order).value| ==>
      VehicleList(order).value[i].online
  {
    var r := VehicleList(order);
    if r.Ok? {
      DistinctLength(order);
      assert (set x | x in order) == keys;
      forall k | k in keys
        ensures exists i :: 0 <= i < |r.value| && r.value[i].vehicleId == k
      {
        var i :| 0 <= i < |order| && order[i] == k;
        assert r.value[i].vehicleId == k;
      }
    } else {
      var i :| 0 <= i < |order| && '-' !in order[i];
      assert order[i] in keys;
    }
  }

  // ---------------------------------------------------------------------
  // The heartbeat sweep's selection

  /** The ids, in dict order, whose heartbeat is stale at `now`. */
  function Stale(order: seq<string>, lastHeartbeat: map<string, int>, now: int): (ids: seq<string>)
    requires forall k :: k in order ==> k in lastHeartbeat
    ensures forall k :: k in ids <==> k in order && now - lastHeartbeat[k] > HeartbeatTimeout
    ensures |ids| <= |order|
  {
    if |order| == 0 then []
    else
      var rest := Stale(order[1..], lastHeartbeat, now);
      if now - lastHeartbeat[order[0]] > HeartbeatTimeout then [order[0]] + rest else rest
  }

  /** The disconnect requests the sweep sends for the stale ids: one per id
      whose session id (`dict.get`) is a non-empty string. */
  function SweepRequests(ids: seq<string>, vehicleConnections: map<string, string>): (events: seq<Event>)
    ensures |events| <= |ids|
    ensures forall e :: e in events ==> (e.DisconnectRequest? &&
      exists k :: k in ids && k in vehicleConnections && vehicleConnections[k] == e.sid && e.sid != "")
    ensures forall k :: k in ids && k in vehicleConnections && vehicleConnections[k] != "" ==>
      DisconnectRequest(vehicleConnections[k]) in events
  {
    if |ids| == 0 then []
    else
      var rest := SweepRequests(ids[1..], vehicleConnections);
      if ids[0] in vehicleConnections && vehicleConnections[ids[0]] != "" then
        [DisconnectRequest(vehicleConnections[ids[0]])] + rest
      else rest
  }

  /** The requests for one id: one request to its session if it has a
      non-empty one, none otherwise. */
  lemma SweepRequestsOne(k: string, vehicleConnections: map<string, string>)
    ensures SweepRequests([k], vehicleConnections) ==
      if k in vehicleConnections && vehicleConnections[k] != "" then [DisconnectRequest(vehicleConnections[k])] else []
  {
    SweepRequestsCons(k, [], vehicleConnections);
  }

  /** The first id's requests come first. */
  lemma SweepRequestsCons(k: string, rest: seq<string>, vehicleConnections: map<string, string>)
    ensures SweepRequests([k] + rest, vehicleConnections) ==
      (if k in vehicleConnections && vehicleConnections[k] != "" then [DisconnectRequest(vehicleConnections[k])] else [])
      + SweepRequests(rest, vehicleConnections)
  {
    assert ([k] + rest)[0] == k && ([k] + rest)[1..] == rest;
  }

  /** The sweep handles the ids one after another: the requests for
      `a + b` are those for `a` followed by those for `b`. With
      SweepRequestsOne this fixes the requests exactly, one per id with a
      session, in the order of the ids. */
  lemma {:induction false} SweepRequestsAppend(a: seq<string>, b: seq<string>, vehicleConnections: map<string, string>)
    ensures SweepRequests(a + b, vehicleConnections) == SweepRequests(a, vehicleConnections) + SweepRequests(b, vehicleConnections)
  {
    if |a| > 0 {
      var k, tail := a[0], a[1..];
      assert a == [k] + tail;
      assert a + b == [k] + (tail + b);
      SweepRequestsCons(k, tail, vehicleConnections);
      SweepRequestsCons(k, tail + b, vehicleConnections);
      SweepRequestsAppend(tail, b, vehicleConnections);
    } else {
      assert a + b == b;
    }
  }

  /** `if vehicle_id:` on `data.get('vehicle_id')`: present and non-empty. */
  predicate Given(vehicleId: Option<string>) {
    vehicleId.Some? && vehicleId.value != ""
  }

  /** The vehicle whose entry a disconnecting session still owns: the one
      it names, provided that vehicle's entry still points back at it. */
  function Owned(vehicleConnections: map<string, string>, sidToVehicle: map<string, string>, sid: string): (owned: set<string>)
    ensures forall v :: v in owned ==> v in vehicleConnections && vehicleConnections[v] == sid
    ensures |owned| <= 1
  {
    if sid in sidToVehicle && sidToVehicle[sid] in vehicleConnections && vehicleConnections[sidToVehicle[sid]] == sid
    then {sidToVehicle[sid]} else {}
  }

  /** Dropping the owned entry keeps every entry of another session. */
  lemma OwnedRemovalKeeps(vehicleConnections: map<string, string>, sidToVehicle: map<string, string>, sid: string)
    ensures forall v :: v in vehicleConnections && vehicleConnections[v] != sid ==>
      v in vehicleConnections - Owned(vehicleConnections, sidToVehicle, sid) &&
      (vehicleConnections - Owned(vehicleConnections, sidToVehicle, sid))[v] == vehicleConnections[v]
  {
  }

  class VehicleConnectionPool {
    var vehicleConnections: map<string, string>
    var lastHeartbeat: map<string, int>
    var sidToVehicle: map<string, string>
    /** The iteration order of `vehicle_connections`. Both vehicle-keyed
        dicts gain and lose their keys together, so it is also the order of
        `last_heartbeat`. */
    var order: seq<string>
    /** Everything emitted so far. */
    var events: seq<Event>

    ghost predicate Valid()
      reads this
    {
      && Distinct(order)
      && (forall k :: k in order <==> k in vehicleConnections)
      && lastHeartbeat.Keys == vehicleConnections.Keys
    }

    constructor ()
      ensures Valid()
      ensures vehicleConnections == map[] && lastHeartbeat == map[] && sidToVehicle == map[]
      ensures order == [] && events == []
    {
      vehicleConnections := map[];
      lastHeartbeat := map[];
      sidToVehicle := map[];
      order := [];
      events := [];
    }

    /** `get_vehicle_list`: one online entry per key, in dict order, named
        after the id's second '-'-separated piece; IndexError as soon as a
        key has no '-'. */
    function GetVehicleList(): (r: Result<seq<VehicleInfo>, PyError>)
      reads this
      ensures r.Ok? <==> forall i :: 0 <= i < |order| ==> '-' in order[i]
      ensures r.Err? ==> r.error == IndexError
      ensures r.Ok? ==> |r.value| == |order| && forall i :: 0 <= i < |order| ==>
        r.value[i].vehicleId == order[i] && r.value[i].online && r.value[i].name == DisplayName(order[i])
    {
      VehicleList(order)
    }

    /** The list has one online entry per connected vehicle, and fails only
        when some connected id has no '-'. */
    lemma VehicleListCoversPool()
      requires Valid()
      ensures GetVehicleList().Ok? <==> forall k :: k in vehicleConnections ==> '-' in k
      ensures GetVehicleList().Ok? ==> |GetVehicleList().value| == |vehicleConnections|
      ensures GetVehicleList().Ok? ==> forall k :: k in vehicleConnections <==>
        exists i :: 0 <= i < |GetVehicleList().value| && GetVehicleList().value[i].vehicleId == k
      ensures GetVehicleList().Ok? ==> forall i :: 0 <= i < |GetVehicleList().value| ==>
        GetVehicleList().value[i].online
    {
      VehicleListOfKeys(order, vehicleConnections.Keys);
    }

    /** `_broadcast_vehicle_list`: emit the list to every client; a failing
        list raises before anything is emitted. */
    method BroadcastVehicleList() returns (o: Outcome)
      modifies this`events
      ensures VehicleList(order).Ok? ==> o == Done && events == old(events) + [VehicleListBroadcast(VehicleList(order).value)]
      ensures VehicleList(order).Err? ==> o == Raised(IndexError) && events == old(events)
    {
      var list := VehicleList(order);
      if list.Err? {
        return Raised(list.error);
      }
      events := events + [VehicleListBroadcast(list.value)];
      o := Done;
    }

    /** `add_connection`: all three dicts are written before the broadcast,
        so an IndexError from the list leaves the new entries in place. */
    method AddConnection(vehicleId: string, sid: string, now: int) returns (o: Outcome)
      requires Valid()
      modifies this
      ensures Valid()
      ensures vehicleConnections == old(vehicleConnections)[vehicleId := sid]
      ensures sidToVehicle == old(sidToVehicle)[sid := vehicleId]
      ensures lastHeartbeat == old(lastHeartbeat)[vehicleId := now]
      ensures order == Assigned(old(order), vehicleId)
      ensures VehicleList(order).Ok? ==> o == Done && events == old(events) + [VehicleListBroadcast(VehicleList(order).value)]
      ensures VehicleList(order).Err? ==> o == Raised(IndexError) && events == old(events)
    {
      vehicleConnections := vehicleConnections[vehicleId := sid];
      sidToVehicle := sidToVehicle[sid := vehicleId];
      lastHeartbeat := lastHeartbeat[vehicleId := now];
      order := Assigned(order, vehicleId);
      o := BroadcastVehicleList();
    }

    /** `del vehicle_connections[v]; del last_heartbeat[v]` for a vehicle
        that is present. */
    method DropVehicle(vehicleId: string)
      requires Valid() && vehicleId in vehicleConnections
      modifies this`vehicleConnections, this`lastHeartbeat, this`order
      ensures Valid()
      ensures vehicleConnections == old(vehicleConnections) - {vehicleId}
      ensures lastHeartbeat == old(lastHeartbeat) - {vehicleId}
      ensures order == Deleted(old(order), vehicleId)
    {
      vehicleConnections := vehicleConnections - {vehicleId};
      lastHeartbeat := lastHeartbeat - {vehicleId};
      order := Deleted(order, vehicleId);
    }

    /** `remove_connection` as written: it deletes whatever vehicle the
        session id last pointed to, even when that vehicle has since been
        re-added under another session, and `del` raises KeyError when the
        vehicle is already gone. */
    method RemoveConnection(sid: string) returns (o: Outcome)
      requires Valid()
      modifies this
      ensures Valid()
      ensures sid !in old(sidToVehicle) ==> o == Done && unchanged(this)
      ensures sid in old(sidToVehicle) && old(sidToVehicle)[sid] !in old(vehicleConnections) ==>
        o == Raised(KeyError(old(sidToVehicle)[sid])) && unchanged(this)
      ensures sid in old(sidToVehicle) && old(sidToVehicle)[sid] in old(vehicleConnections) ==> (
        var v := old(sidToVehicle)[sid];
        && vehicleConnections == old(vehicleConnections) - {v}
        && lastHeartbeat == old(lastHeartbeat) - {v}
        && sidToVehicle == old(sidToVehicle) - {sid}
        && order == Deleted(old(order), v)
        && (VehicleList(order).Ok? ==> o == Done && events == old(events) + [VehicleListBroadcast(VehicleList(order).value)])
        && (VehicleList(order).Err? ==> o == Raised(IndexError) && events == old(events)))
    {
      if sid !in sidToVehicle {
        return Done;
      }
      var vehicleId := sidToVehicle[sid];
      if vehicleId !in vehicleConnections {
        return Raised(KeyError(vehicleId));
      }
      DropVehicle(vehicleId);
      sidToVehicle := sidToVehicle - {sid};
      o := BroadcastVehicleList();
    }

    /** `remove_connection` as intended: forget the session, and drop the
        vehicle's entries only when they still belong to that session. It
        never raises KeyError and never touches another session's entry. */
    method RemoveConnectionCorrected(sid: string) returns (o: Outcome)
      requires Valid()
      modifies this
      ensures Valid()
      ensures !(o.Raised? && o.error.KeyError?)
      ensures sid !in old(sidToVehicle) ==> o == Done && unchanged(this)
      ensures sidToVehicle == old(sidToVehicle) - {sid}
      ensures vehicleConnections == old(vehicleConnections) - Owned(old(vehicleConnections), old(sidToVehicle), sid)
      ensures lastHeartbeat == old(lastHeartbeat) - Owned(old(vehicleConnections), old(sidToVehicle), sid)
      ensures order == if Owned(old(vehicleConnections), old(sidToVehicle), sid) == {} then old(order)
                       else Deleted(old(order), old(sidToVehicle)[sid])
      ensures forall v :: v in old(vehicleConnections) && old(vehicleConnections)[v] != sid ==>
        v in vehicleConnections && vehicleConnections[v] == old(vehicleConnections)[v]
      ensures sid in old(sidToVehicle) ==> (
        && (VehicleList(order).Ok? ==> o == Done && events == old(events) + [VehicleListBroadcast(VehicleList(order).value)])
        && (VehicleList(order).Err? ==> o == Raised(IndexError) && events == old(events)))
    {
      ghost var vc0, hb0 := vehicleConnections, lastHeartbeat;
      OwnedRemovalKeeps(vc0, sidToVehicle, sid);
      if sid !in sidToVehicle {
        assert Owned(vc0, sidToVehicle, sid) == {};
        assert sidToVehicle - {sid} == sidToVehicle;
        assert vc0 - {} == vc0 && hb0 - {} == hb0;
        return Done;
      }
      var vehicleId := sidToVehicle[sid];
      if vehicleId in vehicleConnections && vehicleConnections[vehicleId] == sid {
        assert Owned(vc0, sidToVehicle, sid) == {vehicleId};
        DropVehicle(vehicleId);
      } else {
        assert Owned(vc0, sidToVehicle, sid) == {};
        assert vc0 - {} == vc0 && hb0 - {} == hb0;
      }
      sidToVehicle := sidToVehicle - {sid};
      o := BroadcastVehicleList();
    }

    /** `update_heartbeat`: refresh a known vehicle; never add a key. */
    method UpdateHeartbeat(vehicleId: string, now: int)
      requires Valid()
      modifies this`lastHeartbeat
      ensures Valid()
      ensures lastHeartbeat.Keys == old(lastHeartbeat).Keys
      ensures lastHeartbeat == if vehicleId in old(lastHeartbeat) then old(lastHeartbeat)[vehicleId := now] else old(lastHeartbeat)
    {
      if vehicleId in lastHeartbeat {
        lastHeartbeat := lastHeartbeat[vehicleId := now];
      }
    }

    /** `route_to_vehicle`: false exactly when the vehicle is not connected;
        otherwise the message goes to its session. */
    method RouteToVehicle(vehicleId: string, message: map<string, Value>) returns (routed: bool)
      modifies this`events
      ensures routed <==> vehicleId in vehicleConnections
      ensures routed ==> events == old(events) + [MessageTo(vehicleConnections[vehicleId], message)]
      ensures !routed ==> events == old(events)
    {
      if vehicleId !in vehicleConnections {
        return false;
      }
      var sid := vehicleConnections[vehicleId];
      events := events + [MessageTo(sid, message)];
      routed := true;
    }

    /** The first loop of `_heartbeat_monitor`: the ids, in dict order,
        whose last heartbeat is more than 60 s before `now`. */
    method TimedOutVehicles(now: int) returns (ids: seq<string>)
      requires Valid()
      ensures ids == Stale(order, lastHeartbeat, now)
      ensures forall k :: k in ids <==> k in lastHeartbeat && now - lastHeartbeat[k] > HeartbeatTimeout
    {
      ids := [];
      var i := |order|;
      while i > 0
        invariant 0 <= i <= |order|
        invariant ids == Stale(order[i..], lastHeartbeat, now)
      {
        i := i - 1;
        assert order[i..][1..] == order[i + 1..];
        if now - lastHeartbeat[order[i]] > HeartbeatTimeout {
          ids := [order[i]] + ids;
        }
      }
      assert order[0..] == order;
    }

    /** One pass of `_heartbeat_monitor`, which runs every 30 seconds:
        request a disconnect for every stale vehicle with a session id.
        The dicts are left to the disconnect handler. */
    method HeartbeatSweep(now: int)
      requires Valid()
      modifies this`events
      ensures events == old(events) + SweepRequests(Stale(order, lastHeartbeat, now), vehicleConnections)
      ensures forall k :: k in order && now - lastHeartbeat[k] > HeartbeatTimeout
                          && k in vehicleConnections && vehicleConnections[k] != "" ==>
        DisconnectRequest(vehicleConnections[k]) in events[|old(events)|..]
    {
      var ids := TimedOutVehicles(now);
      var requests: seq<Event> := [];
      var i := |ids|;
      while i > 0
        invariant 0 <= i <= |ids|
        invariant requests == SweepRequests(ids[i..], vehicleConnections)
      {
        i := i - 1;
        assert ids[i..][1..] == ids[i + 1..];
        var vehicleId := ids[i];
        if vehicleId in vehicleConnections && vehicleConnections[vehicleId] != "" {
          requests := [DisconnectRequest(vehicleConnections[vehicleId])] + requests;
        }
      }
      assert ids[0..] == ids;
      events := events + requests;
      assert events[|old(events)|..] == requests;
    }

    /** `handle_connect`: a session carrying a vehicle id header is added
        as that vehicle; any other session is sent the current list. */
    method HandleConnect(sid: string, vehicleHeader: Option<string>, now: int) returns (o: Outcome)
      requires Valid()
      modifies this
      ensures Valid()
      ensures Given(vehicleHeader) ==>
        var v := vehicleHeader.value;
        && vehicleConnections == old(vehicleConnections)[v := sid]
        && sidToVehicle == old(sidToVehicle)[sid := v]
        && lastHeartbeat == old(lastHeartbeat)[v := now]
        && order == Assigned(old(order), v)
        && (VehicleList(order).Ok? ==> o == Done && events == old(events) + [VehicleListBroadcast(VehicleList(order).value)])
        && (VehicleList(order).Err? ==> o == Raised(IndexError) && events == old(events))
      ensures !Given(vehicleHeader) ==>
        && vehicleConnections == old(vehicleConnections) && sidToVehicle == old(sidToVehicle)
        && lastHeartbeat == old(lastHeartbeat) && order == old(order)
        && (VehicleList(order).Ok? ==> o == Done && events == old(events) + [VehicleListTo(sid, VehicleList(order).value)])
        && (VehicleList(order).Err? ==> o == Raised(IndexError) && events == old(events))
    {
      if Given(vehicleHeader) {
        o := AddConnection(vehicleHeader.value, sid, now);
        return;
      }
      var list := VehicleList(order);
      if list.Err? {
        return Raised(list.error);
      }
      events := events + [VehicleListTo(sid, list.value)];
      o := Done;
    }

    /** `handle_vehicle_register`: a session that already names a vehicle
        first drops that vehicle's entries (KeyError when they are already
        gone), then is added under the new id and told so. */
    method HandleVehicleRegister(sid: string, vehicleId: Option<string>, now: int) returns (o: Outcome)
      requires Valid()
      modifies this
      ensures Valid()
      ensures !Given(vehicleId) ==> o == Done && unchanged(this)
      ensures Given(vehicleId) && sid in old(sidToVehicle) && old(sidToVehicle)[sid] !in old(vehicleConnections) ==>
        o == Raised(KeyError(old(sidToVehicle)[sid])) && unchanged(this)
      ensures Given(vehicleId) && (sid in old(sidToVehicle) ==> old(sidToVehicle)[sid] in old(vehicleConnections)) ==> (
        var dropped := if sid in old(sidToVehicle) then {old(sidToVehicle)[sid]} else {};
        && vehicleConnections == (old(vehicleConnections) - dropped)[vehicleId.value := sid]
        && lastHeartbeat == (old(lastHeartbeat) - dropped)[vehicleId.value := now]
        && sidToVehicle == old(sidToVehicle)[sid := vehicleId.value]
        && order == Assigned(if sid in old(sidToVehicle) then Deleted(old(order), old(sidToVehicle)[sid]) else old(order),
                             vehicleId.value)
        && (VehicleList(order).Ok? ==> o == Done && events == old(events) + [VehicleListBroadcast(VehicleList(order).value), RegisteredTo(sid, vehicleId.value)])
        && (VehicleList(order).Err? ==> o == Raised(IndexError) && events == old(events)))
    {
      if !Given(vehicleId) {
        return Done;
      }
      ghost var dropped: set<string> := {};
      if sid in sidToVehicle {
        var oldVehicleId := sidToVehicle[sid];
        if oldVehicleId !in vehicleConnections {
          return Raised(KeyError(oldVehicleId));
        }
        DropVehicle(oldVehicleId);
        dropped := {oldVehicleId};
      }
      assert dropped == if sid in old(sidToVehicle) then {old(sidToVehicle)[sid]} else {};
      assert vehicleConnections == old(vehicleConnections) - dropped;
      assert lastHeartbeat == old(lastHeartbeat) - dropped;
      assert order == if sid in old(sidToVehicle) then Deleted(old(order), old(sidToVehicle)[sid]) else old(order);
      assert sidToVehicle == old(sidToVehicle) && events == old(events);
      o := AddConnection(vehicleId.value, sid, now);
      if o.Raised? {
        return;
      }
      events := events + [RegisteredTo(sid, vehicleId.value)];
    }

    /** `handle_heartbeat`: refresh the named vehicle and answer with a
        pong; a message without a vehicle id is ignored. */
    method HandleHeartbeat(sid: string, vehicleId: Option<string>, now: int)
      requires Valid()
      modifies this`lastHeartbeat, this`events
      ensures Valid()
      ensures lastHeartbeat.Keys == old(lastHeartbeat).Keys
      ensures Given(vehicleId) && vehicleId.value in old(lastHeartbeat) ==> lastHeartbeat == old(lastHeartbeat)[vehicleId.value := now]
      ensures Given(vehicleId) && vehicleId.value !in old(lastHeartbeat) ==> lastHeartbeat == old(lastHeartbeat)
      ensures Given(vehicleId) ==> events == old(events) + [PongTo(sid)]
      ensures !Given(vehicleId) ==> lastHeartbeat == old(lastHeartbeat) && events == old(events)
    {
      if Given(vehicleId) {
        UpdateHeartbeat(vehicleId.value, now);
        events := events + [PongTo(sid)];
      }
    }
  }

  /** The stale-session defect: a vehicle reconnects under a new session
      before the old session's disconnect arrives. The old disconnect
      deletes the live entry, and the new session's own disconnect then
      raises KeyError. */
  method StaleSessionAsWritten(vehicleId: string, oldSid: string, newSid: string)
      returns (first: Outcome, liveDropped: bool, second: Outcome)
    requires oldSid != newSid
    ensures first == Done && liveDropped
    ensures second == Raised(KeyError(vehicleId))
  {
    var pool := new VehicleConnectionPool();
    var a := pool.AddConnection(vehicleId, oldSid, 0);
    var b := pool.AddConnection(vehicleId, newSid, 5);
    assert pool.order == [vehicleId];
    first := pool.RemoveConnection(oldSid);
    assert Deleted([vehicleId], vehicleId) == [];
    liveDropped := vehicleId !in pool.vehicleConnections;
    second := pool.RemoveConnection(newSid);
  }

  /** The same sequence against the corrected removal: the live session
      survives the old disconnect, and its own disconnect removes it. */
  method StaleSessionCorrected(vehicleId: string, oldSid: string, newSid: string)
      returns (first: Outcome, liveKept: bool, second: Outcome, emptied: bool)
    requires oldSid != newSid
    ensures first.Done? || first == Raised(IndexError)
    ensures liveKept
    ensures second == Done && emptied
  {
    var pool := new VehicleConnectionPool();
    var a := pool.AddConnection(vehicleId, oldSid, 0);
    var b := pool.AddConnection(vehicleId, newSid, 5);
    ghost var live := map[vehicleId := newSid];
    ghost var sessions := map[newSid := vehicleId];
    assert pool.order == [vehicleId];
    assert pool.vehicleConnections == live;
    assert pool.sidToVehicle == map[oldSid := vehicleId][newSid := vehicleId];
    assert pool.sidToVehicle - {oldSid} == sessions;
    assert Owned(live, pool.sidToVehicle, oldSid) == {};
    assert live - {} == live;
    first := pool.RemoveConnectionCorrected(oldSid);
    assert pool.vehicleConnections == live && pool.sidToVehicle == sessions && pool.order == [vehicleId];
    liveKept := vehicleId in pool.vehicleConnections && pool.vehicleConnections[vehicleId] == newSid;
    assert Owned(live, sessions, newSid) == {vehicleId};
    assert live - {vehicleId} == map[] && sessions - {newSid} == map[];
    assert Deleted([vehicleId], vehicleId) == [];
    assert VehicleList([]) == Ok([]);
    second := pool.RemoveConnectionCorrected(newSid);
    emptied := pool.vehicleConnections == map[] && pool.sidToVehicle == map[];
  }

  /** A heartbeat exactly 60 s old survives the sweep; one second later the
      vehicle's session is asked to disconnect. */
  method SweepScenario() returns (atLimit: seq<Event>, afterLimit: seq<Event>)
    ensures atLimit == []
    ensures afterLimit == [DisconnectRequest("sid_1")]
  {
    var pool := new VehicleConnectionPool();
    var a := pool.AddConnection("vehicle-001", "sid_1", 100);
    var before := pool.events;
    pool.HeartbeatSweep(160);
    atLimit := pool.events[|before|..];
    before := pool.events;
    pool.HeartbeatSweep(161);
    afterLimit := pool.events[|before|..];
  }
}
