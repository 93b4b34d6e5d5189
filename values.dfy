/** Python values as they cross the wire (what `json.loads` yields and `json.dumps`
    accepts), the exceptions the backend can see, and Python's subscript rules on
    those values. */
module Values {

  datatype Option<+T> = None | Some(value: T) {
    function GetOr(default: T): T {
      match this
      case Some(v) => v
      case None => default
    }
  }

  /** A JSON-shaped Python value. Dictionary keys are strings, as in JSON. */
  datatype Value =
    | Null
    | Bool(b: bool)
    | Int(i: int)
    | Float(r: real)
    | Str(s: string)
    | List(items: seq<Value>)
    | Dict(fields: map<string, Value>)

  /** What a call can raise. `ClientError` is botocore's structured provider error
      (`e.response["Error"]`, whose "Message" may be absent); the two credential
      errors are botocore's; `Exception` is any other exception, by
      `type(e).__name__` and `str(e)`. */
  datatype Failure =
    | ClientError(code: string, message: Option<string>)
    | NoCredentials
    | PartialCredentials(text: string)
    | Exception(typeName: string, text: string)

  /** A computation that either returns a value or raises. */
  datatype Outcome<+T> = Ok(value: T) | Raised(failure: Failure)

  /** `type(e).__name__` of a failure that is not a ClientError. For a
      ClientError the result is the literal kind "ClientError" that the health
      service records; botocore raises a subclass named after the error code,
      whose own name the routes only log. */
  function FailureTypeName(f: Failure): string {
    match f
    case ClientError(_, _) => "ClientError"
    case NoCredentials => "NoCredentialsError"
    case PartialCredentials(_) => "PartialCredentialsError"
    case Exception(t, _) => t
  }

  /** `str(e)` of a failure that is not a ClientError (botocore's fixed text for
      NoCredentialsError). */
  function FailureText(f: Failure): string
    requires !f.ClientError?
  {
    match f
    case NoCredentials => "Unable to locate credentials"
    case PartialCredentials(t) => t
    case Exception(_, t) => t
  }

  /** `e.response["Error"].get("Message", "Unknown error")`. */
  function MessageOrDefault(m: Option<string>): (r: string)
    ensures m.Some? ==> r == m.value
    ensures m.None? ==> r == "Unknown error"
  {
    m.GetOr("Unknown error")
  }

  /** `type(v).__name__`. */
  function TypeName(v: Value): string {
    match v
    case Null => "NoneType"
    case Bool(_) => "bool"
    case Int(_) => "int"
    case Float(_) => "float"
    case Str(_) => "str"
    case List(_) => "list"
    case Dict(_) => "dict"
  }

  function NotSubscriptable(v: Value): Failure {
    Exception("TypeError", "'" + TypeName(v) + "' object is not subscriptable")
  }

  /** `v[key]` for a string key. The KeyError text `'key'` is Python's
      `str(KeyError(key))` for keys without a quote or a backslash, which holds
      for every fixed key the adapters read. */
  function Item(v: Value, key: string): (r: Outcome<Value>)
    ensures r.Ok? <==> v.Dict? && key in v.fields
    ensures r.Ok? ==> r.value == v.fields[key]
    ensures v.Dict? && key !in v.fields ==> r == Raised(Exception("KeyError", "'" + key + "'"))
  {
    match v
    case Dict(m) =>
      if key in m then Ok(m[key]) else Raised(Exception("KeyError", "'" + key + "'"))
    case List(_) => Raised(Exception("TypeError", "list indices must be integers or slices, not str"))
    case Str(_) => Raised(Exception("TypeError", "string indices must be integers, not 'str'"))
    case _ => Raised(NotSubscriptable(v))
  }

  /** `v[0]`. A string yields its first character; a dictionary with string keys
      has no key 0. */
  function First(v: Value): (r: Outcome<Value>)
    ensures v.List? ==> (r.Ok? <==> |v.items| > 0)
    ensures v.List? && |v.items| > 0 ==> r == Ok(v.items[0])
    ensures v.List? && |v.items| == 0 ==> r == Raised(Exception("IndexError", "list index out of range"))
    ensures v.Str? ==> (r.Ok? <==> |v.s| > 0)
    ensures v.Str? && |v.s| > 0 ==> r == Ok(Str([v.s[0]]))
    ensures v.Str? && |v.s| == 0 ==> r == Raised(Exception("IndexError", "string index out of range"))
    ensures v.Dict? ==> r == Raised(Exception("KeyError", "0"))
    ensures !(v.List? || v.Str? || v.Dict?) ==> r == Raised(NotSubscriptable(v))
    ensures r.Ok? ==> v.List? || v.Str?
  {
    match v
    case List(xs) =>
      if |xs| > 0 then Ok(xs[0]) else Raised(Exception("IndexError", "list index out of range"))
    case Str(s) =>
      if |s| > 0 then Ok(Str([s[0]])) else Raised(Exception("IndexError", "string index out of range"))
    case Dict(_) => Raised(Exception("KeyError", "0"))
    case _ => Raised(NotSubscriptable(v))
  }

  /** `v.get(key)`: None (Python's) when the key is absent. */
  function Get(v: Value, key: string): (r: Outcome<Value>)
    ensures r.Ok? <==> v.Dict?
    ensures v.Dict? ==> r.value == (if key in v.fields then v.fields[key] else Null)
  {
    match v
    case Dict(m) => Ok(if key in m then m[key] else Null)
    case _ => Raised(Exception("AttributeError", "'" + TypeName(v) + "' object has no attribute 'get'"))
  }

  /** Values `len` accepts: strings, lists and dictionaries. */
  predicate Sized(v: Value) {
    v.Str? || v.List? || v.Dict?
  }

  /** `len(v)`: the number of characters, items or keys; any other value raises
      Python's TypeError. */
  function Len(v: Value): (r: Outcome<nat>)
    ensures r.Ok? <==> Sized(v)
    ensures v.Str? ==> r == Ok(|v.s|)
    ensures v.List? ==> r == Ok(|v.items|)
    ensures v.Dict? ==> r == Ok(|v.fields|)
    ensures !Sized(v) ==> r == Raised(Exception("TypeError", "object of type '" + TypeName(v) + "' has no len()"))
  {
    match v
    case Str(s) => Ok(|s|)
    case List(xs) => Ok(|xs|)
    case Dict(m) => Ok(|m|)
    case _ => Raised(Exception("TypeError", "object of type '" + TypeName(v) + "' has no len()"))
  }

  /** Sequencing: the failure of the first step is the failure of the whole. */
  function Then<T, U>(o: Outcome<T>, k: T -> Outcome<U>): (r: Outcome<U>)
    ensures o.Raised? ==> r == Raised(o.failure)
    ensures o.Ok? ==> r == k(o.value)
  {
    match o
    case Ok(x) => k(x)
    case Raised(f) => Raised(f)
  }

  /** `v["k1"][0]["k2"]`, the shape every adapter reads its answer from. */
  function FieldFirstField(v: Value, k1: string, k2: string): Outcome<Value> {
    Then(Item(v, k1), (a: Value) => Then(First(a), (b: Value) => Item(b, k2)))
  }

  /** `FieldFirstField` succeeds exactly on a dictionary whose `k1` is a non-empty
      list starting with a dictionary that has `k2`, and then gives that entry. */
  lemma FieldFirstFieldOk(v: Value, k1: string, k2: string)
    ensures FieldFirstField(v, k1, k2).Ok? <==>
      (v.Dict? && k1 in v.fields && v.fields[k1].List? && |v.fields[k1].items| > 0
       && v.fields[k1].items[0].Dict? && k2 in v.fields[k1].items[0].fields)
    ensures FieldFirstField(v, k1, k2).Ok? ==>
      FieldFirstField(v, k1, k2).value == v.fields[k1].items[0].fields[k2]
  {
    if v.Dict? && k1 in v.fields {
      var a := v.fields[k1];
      if a.Str? && |a.s| > 0 {
        assert First(a) == Ok(Str([a.s[0]]));
        assert Item(Str([a.s[0]]), k2).Raised?;
      }
    }
  }
}
