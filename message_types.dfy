/** The gateway's message vocabulary: the connection-type enum, the
    WebSocket message envelope and the vehicle-list entry. */
module MessageTypes {
  import opened Wrappers

  /** `ConnType` is a Go `int`: every integer is a value of the type, and
      the three named constants are 0, 1 and 2 (`iota`). */
  type ConnType = int

  const ConnTypeUnknown: ConnType := 0
  const ConnTypeVehicle: ConnType := 1
  const ConnTypeClient: ConnType := 2

  /** `ConnType.String`: "vehicle" and "client" for the two known kinds,
      "unknown" for every other value, 0 included. */
  function ConnTypeString(c: ConnType): (s: string)
    ensures s == "vehicle" <==> c == ConnTypeVehicle
    ensures s == "client" <==> c == ConnTypeClient
    ensures s == "unknown" <==> c != ConnTypeVehicle && c != ConnTypeClient
  {
    if c == ConnTypeVehicle then "vehicle"
    else if c == ConnTypeClient then "client"
    else "unknown"
  }

  /** The names of distinct known kinds differ, and a name determines the
      known kind it came from. */
  lemma ConnTypeStringInjectiveOnKnown(a: ConnType, b: ConnType)
    requires ConnTypeString(a) == ConnTypeString(b)
    requires ConnTypeString(a) != "unknown"
    ensures a == b
  {
  }

  /** A JSON-shaped value: the payloads of `map[string]interface{}` and of
      the Python dicts sent over the wire. */
  datatype Value =
    | Null
    | Bool(b: bool)
    | Num(n: int)
    | Str(s: string)
    | Arr(items: seq<Value>)
    | Obj(fields: map<string, Value>)

  /** `Message`: `Data` is a Go map, so it can be nil (None) or a map. */
  datatype Message = Message(msgType: string, vehicleId: string, data: Option<map<string, Value>>, timestamp: int)

  /** `NewMessage(t)`, with the clock reading `time.Now().Unix()` passed in. */
  function NewMessage(msgType: string, nowUnix: int): (m: Message)
    ensures m.msgType == msgType && m.vehicleId == ""
    ensures m.data == Some(map[])
    ensures m.timestamp == nowUnix
  {
    Message(msgType, "", Some(map[]), nowUnix)
  }

  datatype VehicleInfo = VehicleInfo(vehicleId: string, name: string, online: bool)
}
