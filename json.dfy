/** JSON values as the agent sees them after `response.json()`, and the two
    pieces of JavaScript semantics the agent's shape checks rely on:
    property access (`v.key`, `v?.key`) and truthiness. */
module Json {

  /** `undefined` is None; every other JavaScript value the agent handles is Some. */
  datatype Option<+T> = None | Some(value: T)

  /** A parsed JSON document. Numbers are integers: every number the agent
      builds or inspects (message types, the application id) is one. */
  datatype Json =
    | JNull
    | JBool(b: bool)
    | JNum(n: int)
    | JStr(s: string)
    | JArr(items: seq<Json>)
    | JObj(fields: map<string, Json>)

  /** `v.key` on a value that is not null or undefined. Only objects carry the
      keys the agent looks up; on any other value the access yields undefined. */
  function Get(v: Json, key: string): (r: Option<Json>)
    ensures r.Some? <==> v.JObj? && key in v.fields
    ensures r.Some? ==> r.value == v.fields[key]
  {
    if v.JObj? && key in v.fields then Some(v.fields[key]) else None
  }

  /** `v?.key`: undefined stays undefined. */
  function Chain(v: Option<Json>, key: string): Option<Json>
  {
    if v.None? then None else Get(v.value, key)
  }

  /** `v.k1.k2 ... kn`, as far as the keys exist; undefined from the first
      missing key on. */
  function Path(v: Json, keys: seq<string>): Option<Json>
    decreases |keys|
  {
    if keys == [] then Some(v)
    else
      var next := Get(v, keys[0]);
      if next.None? then None else Path(next.value, keys[1..])
  }

  /** JavaScript truthiness: undefined, null, false, 0 and "" are falsy;
      every object and every array is truthy. */
  predicate Truthy(v: Option<Json>)
  {
    match v
    case None => false
    case Some(JNull) => false
    case Some(JBool(b)) => b
    case Some(JNum(n)) => n != 0
    case Some(JStr(s)) => s != []
    case Some(_) => true
  }

  /** null or undefined: the values on which a property access or an index
      throws a TypeError. */
  predicate Nullish(v: Option<Json>)
  {
    v.None? || v.value.JNull?
  }
}
