/** The JSON documents the client sends and receives, shaped like
    `serde_json::Value`. Numbers are kept as integers: the client never
    inspects them, it only forwards them. */
module Json {
  import opened Outcomes

  datatype Value =
    | Null
    | Bool(b: bool)
    | Number(n: int)
    | String(s: string)
    | Array(items: seq<Value>)
    | Object(members: map<string, Value>)

  /** `Value::get` with a string key: a member lookup on an object; every
      other shape has no members and yields nothing. */
  function Get(v: Value, key: string): (r: Option<Value>)
    ensures r.Some? <==> v.Object? && key in v.members
    ensures r.Some? ==> r.value == v.members[key]
  {
    match v
    case Object(members) => if key in members then Some(members[key]) else None
    case _ => None
  }

  /** The response-envelope convention: a document with a top-level "Err"
      member reports an application-level failure. */
  predicate HasErrMember(v: Value) {
    Get(v, "Err").Some?
  }
}
