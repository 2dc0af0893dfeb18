/** The part of a JSON library the relay relies on: values, member access and typed conversions. */
module Json {
  import opened Sequences
  import opened Words

  /** Member names used by the relay; any other name is foreign. */
  datatype Key =
    | Timestamp | DirectionKey | PacketTypeKey | PacketId | PacketName | Size | Data | ChunkData
    | Metadata | Injected | Blocked | ChunkSize | SessionId | SyncCount
    | Version | SessionUuid | MessageId
    | Command | Params
    | Foreign(name: string)

  datatype Value =
    | JNull
    | JBool(truth: bool)
    | JInt(number: int)
    | JString(text: string)
    | JArray(items: seq<Value>)
    | JObject(members: map<Key, Value>)

  /** `j.at(k)`: None stands for the exception. */
  function At(j: Value, k: Key): Option<Value> {
    if j.JObject? && k in j.members then Some(j.members[k]) else None
  }

  /** Implicit conversions; None stands for the exception, a number is cast modulo the width. */
  function AsUInt64(j: Value): Option<UInt64> {
    if j.JInt? then Some(j.number % TWO_64) else None
  }

  /** For the narrower integers the library also converts booleans. */
  function AsUInt32(j: Value): Option<UInt32> {
    if j.JInt? then Some(j.number % 0x1_0000_0000)
    else if j.JBool? then Some(if j.truth then 1 else 0)
    else None
  }

  function AsUInt16(j: Value): Option<UInt16> {
    if j.JInt? then Some(j.number % 0x1_0000)
    else if j.JBool? then Some(if j.truth then 1 else 0)
    else None
  }

  function AsBool(j: Value): Option<bool> {
    if j.JBool? then Some(j.truth) else None
  }

  function AsString(j: Value): Option<string> {
    if j.JString? then Some(j.text) else None
  }

  /** Only numbers and booleans convert to integers, and a number that is too wide is cut. */
  lemma Conversions(j: Value)
    ensures AsUInt64(j) == if j.JInt? then Some(j.number % 0x1_0000_0000_0000_0000) else None
    ensures j.JInt? ==> AsUInt32(j) == Some(j.number % 0x1_0000_0000) && AsUInt16(j) == Some(j.number % 0x1_0000)
    ensures j.JBool? ==>
      AsUInt32(j) == Some(if j.truth then 1 else 0) && AsUInt16(j) == Some(if j.truth then 1 else 0)
    ensures !j.JInt? && !j.JBool? ==> AsUInt32(j) == None && AsUInt16(j) == None
    ensures AsBool(j) == if j.JBool? then Some(j.truth) else None
    ensures AsString(j) == if j.JString? then Some(j.text) else None
  {
  }
}
