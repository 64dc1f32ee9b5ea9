/**
 * The dynamically typed values that the services exchange: decoded JSON bodies,
 * yfinance fields and the dictionaries the code builds.  Objects keep key order.
 */
module Json {
  import opened Wrappers
  import opened Text
  import opened Dict

  datatype Json =
    | Null
    | Int(i: int)
    | Float(x: real)
    | Str(s: string)
    | Arr(items: seq<Json>)
    | Obj(fields: Entries<Json>)

  /** A dictionary with string keys. */
  type Fields = Entries<Json>

  /** The placeholder the code writes for a missing value. */
  const NA: Json := Str("N/A")

  /** Python truthiness (`if x:`). */
  predicate Truthy(j: Json)
  {
    match j
    case Null => false
    case Int(i) => i != 0
    case Float(x) => x != 0.0
    case Str(s) => s != ""
    case Arr(a) => a != []
    case Obj(f) => f != []
  }

  /** `isinstance(j, (int, float))`. */
  predicate IsNumber(j: Json)
  {
    j.Int? || j.Float?
  }

  /** `float(j)` for a number. */
  function NumberValue(j: Json): real
    requires IsNumber(j)
  {
    if j.Int? then j.i as real else j.x
  }

  /** `type(j).__name__`. */
  function TypeName(j: Json): string
  {
    match j
    case Null => "NoneType"
    case Int(_) => "int"
    case Float(_) => "float"
    case Str(_) => "str"
    case Arr(_) => "list"
    case Obj(_) => "dict"
  }

  /** The message of the AttributeError raised by `j.attr` on a value that lacks it. */
  function AttributeError(j: Json, attr: string): string
  {
    "'" + TypeName(j) + "' object has no attribute '" + attr + "'"
  }

  /**
   * `j.get(key, default)`: defined on dictionaries only; on anything else it raises
   * AttributeError, given here as its message.
   */
  function PyGet(j: Json, key: string, default: Json): (r: Result<Json, string>)
    ensures r.Ok? <==> j.Obj?
    ensures j.Obj? && key !in KeySet(j.fields) ==> r == Ok(default)
    ensures j.Obj? && key in KeySet(j.fields) ==> r.Ok? && (key, r.value) in j.fields
    ensures !j.Obj? ==> r == Err(AttributeError(j, "get"))
  {
    if j.Obj? then Ok(GetOr(j.fields, key, default)) else Err(AttributeError(j, "get"))
  }

  /**
   * `key in j`: a key of a dictionary, an element of a list, a substring of a string;
   * any other value raises TypeError, given here as its message.
   */
  function PyContains(j: Json, key: string): (r: Result<bool, string>)
    ensures j.Obj? ==> r == Ok(key in KeySet(j.fields))
    ensures r.Err? <==> !(j.Obj? || j.Arr? || j.Str?)
  {
    match j
    case Obj(f) => Ok(key in KeySet(f))
    case Arr(a) => Ok(Str(key) in a)
    case Str(s) => Ok(Contains(s, key))
    case _ => Err("argument of type '" + TypeName(j) + "' is not iterable")
  }

  /**
   * `j[key]`: the value of a dictionary under `key`, KeyError when it is missing;
   * indexing anything else by a string raises TypeError.
   */
  function PyIndex(j: Json, key: string): (r: Result<Json, string>)
    ensures r.Ok? <==> j.Obj? && key in KeySet(j.fields)
    ensures r.Ok? ==> Some(r.value) == Get(j.fields, key)
  {
    match j
    case Obj(f) => if key in KeySet(f) then Ok(GetOr(f, key, Null)) else Err("'" + key + "'")
    case Arr(_) => Err("list indices must be integers or slices, not str")
    case Str(_) => Err("string indices must be integers, not 'str'")
    case _ => Err("'" + TypeName(j) + "' object is not subscriptable")
  }

  /**
   * The float and text conversions of the Python runtime that the model does not
   * define: `f"{x:.2f}"`, `f"{x:.4f}"`, `round(x, 2)`, `float(s)` and `int(s)` on a
   * string (None where Python raises ValueError), `str(x)` of a float, list or
   * dict, and `json.dumps(x, indent=2)`.
   */
  datatype Formats = Formats(
    fixed2: real -> string,
    fixed4: real -> string,
    round2: real -> real,
    parseFloat: string -> Option<real>,
    parseInt: string -> Option<int>,
    repr: Json -> string,
    dumps: Json -> string)

  /** `str(j)`, as an f-string prints `{j}`. */
  function Show(j: Json, fmt: Formats): (r: string)
    ensures j.Str? ==> r == j.s
    ensures j == Null ==> r == "None"
  {
    match j
    case Str(s) => s
    case Null => "None"
    case Int(i) => IntToDecimal(i)
    case _ => fmt.repr(j)
  }

  /** How a Python builtin conversion failed. */
  datatype ConversionError = ValueError | TypeError(msg: string)

  /** `float(j)`. */
  function ToFloat(j: Json, fmt: Formats): (r: Result<real, ConversionError>)
    ensures IsNumber(j) ==> r == Ok(NumberValue(j))
    ensures r.Err? && r.error.TypeError? <==> !IsNumber(j) && !j.Str?
  {
    match j
    case Int(i) => Ok(i as real)
    case Float(x) => Ok(x)
    case Str(s) => if fmt.parseFloat(s).Some? then Ok(fmt.parseFloat(s).value) else Err(ValueError)
    case _ => Err(TypeError("float() argument must be a string or a real number, not '" + TypeName(j) + "'"))
  }

  /** `int(j)`; a float is truncated toward zero. */
  function ToInt(j: Json, fmt: Formats): (r: Result<int, ConversionError>)
    ensures j.Int? ==> r == Ok(j.i)
    ensures j.Float? ==> r == Ok(TruncateTowardZero(j.x))
    ensures r.Err? && r.error.TypeError? <==> !IsNumber(j) && !j.Str?
  {
    match j
    case Int(i) => Ok(i)
    case Float(x) => Ok(TruncateTowardZero(x))
    case Str(s) => if fmt.parseInt(s).Some? then Ok(fmt.parseInt(s).value) else Err(ValueError)
    case _ => Err(TypeError("int() argument must be a string, a bytes-like object or a real number, not '" + TypeName(j) + "'"))
  }
}
