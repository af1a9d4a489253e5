/**
 * Values as `json.loads` hands them to Python code, Python's truthiness of
 * them, the built-in `int()` applied to them, and the exceptions the modelled
 * code can raise.
 */
module PyValues {
  import opened Wrappers
  import opened PyText

  /** A decoded JSON document: `None`, `bool`, `int`, `float`, `str`, `list` or `dict`. */
  datatype JsonValue =
    | JNull
    | JBool(b: bool)
    | JInt(i: int)
    | JFloat(f: real)
    | JStr(s: string)
    | JArray(items: seq<JsonValue>)
    | JObject(fields: map<string, JsonValue>)

  /** The Python exceptions the modelled code raises or lets escape. */
  datatype PyError =
    | ValueError(message: string)
    | TypeError(message: string)
    | KeyError(key: string)
    | IndexError(message: string)
    | ParamValidationError(message: string)
    | NoSuchKey(key: string)
    | NoSuchBucket(bucket: string)
    | UnidentifiedImageError(key: string)

  /** The type name Python uses for a value in its error messages. */
  function TypeName(v: JsonValue): string
  {
    match v
    case JNull => "NoneType"
    case JBool(_) => "bool"
    case JInt(_) => "int"
    case JFloat(_) => "float"
    case JStr(_) => "str"
    case JArray(_) => "list"
    case JObject(_) => "dict"
  }

  /**
   * `v[key]` for a string key: a dict looks the key up (KeyError when it is
   * missing); lists and strings raise TypeError, as does anything that is not
   * subscriptable.
   */
  function Lookup(v: JsonValue, key: string): (r: Result<JsonValue, PyError>)
    ensures r.Success? <==> v.JObject? && key in v.fields
    ensures r.Success? ==> r.value == v.fields[key]
    ensures v.JObject? && key !in v.fields ==> r == Failure(KeyError(key))
  {
    match v
    case JObject(fields) => if key in fields then Success(fields[key]) else Failure(KeyError(key))
    case JArray(_) => Failure(TypeError("list indices must be integers or slices, not str"))
    case JStr(_) => Failure(TypeError("string indices must be integers, not 'str'"))
    case _ => Failure(TypeError("'" + TypeName(v) + "' object is not subscriptable"))
  }

  /**
   * `v[0]`: the first item of a list or the first character of a string
   * (IndexError when empty); a dict looks up the key 0, which a decoded JSON
   * object never has; anything else is not subscriptable.
   */
  function First(v: JsonValue): (r: Result<JsonValue, PyError>)
    ensures v.JArray? && v.items != [] ==> r == Success(v.items[0])
    ensures v.JArray? && v.items == [] ==> r == Failure(IndexError("list index out of range"))
    ensures r.Success? ==> (v.JArray? || v.JStr?)
  {
    match v
    case JArray(items) => if items != [] then Success(items[0]) else Failure(IndexError("list index out of range"))
    case JStr(s) => if s != [] then Success(JStr([s[0]])) else Failure(IndexError("string index out of range"))
    case JObject(_) => Failure(KeyError("0"))
    case _ => Failure(TypeError("'" + TypeName(v) + "' object is not subscriptable"))
  }

  /** Python's truth value: `None`, `False`, zero, and empty strings, lists and dicts are false. */
  predicate Truthy(v: JsonValue)
  {
    match v
    case JNull => false
    case JBool(b) => b
    case JInt(i) => i != 0
    case JFloat(f) => f != 0.0
    case JStr(s) => s != []
    case JArray(items) => items != []
    case JObject(fields) => fields != map[]
  }

  /** Truncation toward zero, as `int()` does to a float. */
  function Truncate(f: real): (n: int)
    ensures f >= 0.0 ==> 0.0 <= n as real <= f < n as real + 1.0
    ensures f < 0.0 ==> n as real - 1.0 < f <= n as real <= 0.0
  {
    if f >= 0.0 then f.Floor else -((-f).Floor)
  }

  /**
   * The built-in `int(v)`: booleans become 0 or 1, floats are truncated toward
   * zero, strings are parsed in base 10 (ValueError when they are not a
   * number), and `None`, lists and dicts raise TypeError.
   */
  function IntOf(v: JsonValue): (r: Result<int, PyError>)
    ensures v.JInt? ==> r == Success(v.i)
    ensures v.JStr? ==> (r.Success? <==> ParseInt(v.s).Some?)
    ensures r.Failure? ==> (v.JStr? && r.error.ValueError?) || (!v.JStr? && r.error.TypeError?)
    ensures (v.JNull? || v.JArray? || v.JObject?) ==> r.Failure?
  {
    match v
    case JBool(b) => Success(if b then 1 else 0)
    case JInt(i) => Success(i)
    case JFloat(f) => Success(Truncate(f))
    case JStr(s) =>
      (match ParseInt(s)
       case Some(n) => Success(n)
       case None => Failure(ValueError("invalid literal for int() with base 10")))
    case JNull => Failure(TypeError("int() argument must be a string or a real number, not 'NoneType'"))
    case JArray(_) => Failure(TypeError("int() argument must be a string or a real number, not 'list'"))
    case JObject(_) => Failure(TypeError("int() argument must be a string or a real number, not 'dict'"))
  }
}
