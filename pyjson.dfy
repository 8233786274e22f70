/**
 * JSON values as the Python adapter sees them after `response.json()`,
 * together with the two pieces of Python semantics the adapter relies on:
 * truthiness (`x or y`) and subscripting a value with a string key or an
 * integer index, which raises `TypeError`, `KeyError` or `IndexError`.
 */
module PyJson {
  import opened Wrappers

  /** A JSON document. `JNull` is also Python's `None`. Numbers are integers. */
  datatype Json =
    | JNull
    | JBool(b: bool)
    | JNum(n: int)
    | JStr(s: string)
    | JArr(items: seq<Json>)
    | JObj(fields: map<string, Json>)

  /** The exceptions the adapter can raise or propagate. */
  datatype PyError =
    | TypeError             // subscripting a value that does not support it
    | KeyError(key: string) // a missing dictionary key
    | IndexError            // a list index out of range
    | DecodeError           // base64 (binascii) decoding failed
    | TransportError        // the HTTP call or `response.json()` failed: `Network.respond`'s failure
    | LibraryError          // an exception raised inside an audio library: the decoder's or merger's failure

  /** Python truthiness of a JSON value. */
  predicate Truthy(j: Json) {
    match j
    case JNull => false
    case JBool(b) => b
    case JNum(n) => n != 0
    case JStr(s) => s != ""
    case JArr(items) => items != []
    case JObj(fields) => fields != map[]
  }

  /** Python truthiness of an optional string (`None` and `""` are false). */
  predicate TruthyStr(s: Option<string>) {
    s.Some? && s.value != ""
  }

  /** Python's `a or b` on optional strings: `a` when truthy, else `b`. */
  function OrElse(a: Option<string>, b: Option<string>): (r: Option<string>)
    ensures TruthyStr(a) ==> r == a
    ensures !TruthyStr(a) ==> r == b
  {
    if TruthyStr(a) then a else b
  }

  /** `a or os.environ.get(name)`: an argument that is `None` or `""` defers to the environment. */
  function OrEnv(a: Option<string>, env: map<string, string>, name: string): (r: Option<string>)
    ensures r == None <==> !TruthyStr(a) && name !in env
    ensures TruthyStr(a) ==> r == a
    ensures !TruthyStr(a) && name in env ==> r == Some(env[name])
  {
    OrElse(a, EnvGet(env, name))
  }

  /** Python's `os.environ.get(name)`. */
  function EnvGet(env: map<string, string>, name: string): (r: Option<string>)
    ensures r.Some? <==> name in env
    ensures r.Some? ==> r.value == env[name]
  {
    if name in env then Some(env[name]) else None
  }

  /** `j[key]` for a string key: only a dictionary holding the key succeeds. */
  function Member(j: Json, key: string): (r: Result<Json, PyError>)
    ensures r.Success? <==> j.JObj? && key in j.fields
    ensures r.Success? ==> r.value == j.fields[key]
    ensures j.JObj? && key !in j.fields ==> r == Failure(KeyError(key))
    ensures !j.JObj? ==> r == Failure(TypeError)
  {
    match j
    case JObj(fields) => if key in fields then Success(fields[key]) else Failure(KeyError(key))
    case _ => Failure(TypeError)
  }

  /**
   * `j[0]`: the first element of a non-empty list. Indexing a string yields
   * a one-character string, which the adapter only ever subscripts again
   * with a string key, so it is represented here as that string.
   */
  function First(j: Json): (r: Result<Json, PyError>)
    ensures j.JArr? && j.items != [] ==> r == Success(j.items[0])
    ensures j.JStr? && j.s != "" ==> r == Success(JStr([j.s[0]]))
    ensures r.Success? ==> (j.JArr? && j.items != []) || (j.JStr? && j.s != "")
  {
    match j
    case JArr(items) => if items == [] then Failure(IndexError) else Success(items[0])
    case JStr(s) => if s == "" then Failure(IndexError) else Success(JStr([s[0]]))
    case JObj(fields) => Failure(KeyError("0"))
    case _ => Failure(TypeError)
  }

  /** `j[p0][p1]...` for a path of string keys. */
  function At(j: Json, path: seq<string>): (r: Result<Json, PyError>)
    decreases |path|
  {
    if path == [] then Success(j)
    else match Member(j, path[0])
      case Failure(e) => Failure(e)
      case Success(child) => At(child, path[1..])
  }

  /** The keys of a dictionary value (empty for every other value). */
  function Keys(j: Json): set<string> {
    if j.JObj? then j.fields.Keys else {}
  }
}
