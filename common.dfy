/** Values shared by the client layer and the entity provider: optional values,
    results that carry an error, the JSON values that end up in entity
    parameters, and JavaScript truthiness for the `||` and `&&` defaults the
    code relies on. */
module Common {

  datatype Option<+T> = None | Some(value: T) {
    function GetOr(default: T): T {
      match this
      case Some(v) => v
      case None => default
    }
  }

  /** The outcome of an awaited call: a value, or the error it threw. */
  datatype Result<+T> = Ok(value: T) | Err(error: Error)

  /** What the code throws. */
  datatype Error =
    | NotInitialized                                           // run() before connect()
    | RequestFailed                                            // request() made no attempt at all
    | ApiError(status: int, statusText: string, body: Value)   // a response whose status is not ok
    | TransportError(reason: string)                           // fetch rejected, aborted by the timeout, or the body was not JSON
    | CatalogError(reason: string)                             // the catalog rejected applyMutation

  /** A JSON-like value as JavaScript holds it, `undefined` included, because an
      object literal such as `{ usageModel: script.usage_model }` has the key
      even when the value is undefined. */
  datatype Value =
    | Undefined
    | Null
    | Bool(b: bool)
    | Num(n: int)
    | Str(s: string)
    | Arr(items: seq<Value>)
    | Obj(fields: map<string, Value>)

  /** JavaScript truthiness of a value. */
  predicate Truthy(v: Value) {
    match v
    case Undefined => false
    case Null => false
    case Bool(b) => b
    case Num(n) => n != 0
    case Str(s) => s != ""
    case Arr(_) => true
    case Obj(_) => true
  }

  /** An optional string is truthy when present and not empty. */
  predicate TruthyString(o: Option<string>) {
    o.Some? && o.value != ""
  }

  /** An optional number is truthy when present and not zero. */
  predicate TruthyNumber(o: Option<int>) {
    o.Some? && o.value != 0
  }

  function OptStr(o: Option<string>): Value {
    match o
    case Some(s) => Str(s)
    case None => Undefined
  }

  function OptNum(o: Option<int>): Value {
    match o
    case Some(n) => Num(n)
    case None => Undefined
  }

  function OptBool(o: Option<bool>): Value {
    match o
    case Some(b) => Bool(b)
    case None => Undefined
  }

  /** A list of strings as a JSON array. */
  function Strs(xs: seq<string>): (r: Value)
    ensures r.Arr? && |r.items| == |xs|
    ensures xs == [] ==> r == Arr([])
  {
    Arr(seq(|xs|, i requires 0 <= i < |xs| => Str(xs[i])))
  }
}
