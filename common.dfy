/**
 * Values, rows and the small pieces of Python semantics that every script of the
 * survey data processor relies on: truthiness, `x in container`, `str(x)`, and the
 * abstract built-ins (codecs, JSON, hashing, float parsing) that the model treats
 * as uninterpreted.
 */
module Common {
  import opened Text

  datatype Option<T> = None | Some(value: T)

  /** The outcome of a Python call that may raise: `Err` carries `str(exception)`. */
  datatype Outcome<T> = Ok(value: T) | Err(msg: string)

  type Byte = bv8
  type Bytes = seq<Byte>

  /** A Python value as it appears in a pandas row or a parsed JSON document. */
  datatype Value =
    | Null                           // None
    | NaN                            // float('nan'): pandas' missing-value marker
    | Bool(b: bool)
    | Int(i: int)
    | Float(r: real)
    | Str(s: string)
    | List(items: seq<Value>)
    | Dict(fields: map<string, Value>)

  /** A table row as `row.to_dict()` gives it: column name to cell. */
  type Row = map<string, Value>

  /** Python's `bool(v)`. NaN is truthy, as it is in Python. */
  predicate Truthy(v: Value) {
    match v
    case Null => false
    case NaN => true
    case Bool(b) => b
    case Int(i) => i != 0
    case Float(r) => r != 0.0
    case Str(s) => s != ""
    case List(xs) => xs != []
    case Dict(m) => m != map[]
  }

  /** `type(v).__name__` */
  function TypeName(v: Value): string {
    match v
    case Null => "NoneType"
    case NaN => "float"
    case Bool(_) => "bool"
    case Int(_) => "int"
    case Float(_) => "float"
    case Str(_) => "str"
    case List(_) => "list"
    case Dict(_) => "dict"
  }

  /** The message of the AttributeError raised by `v.attr` on a value without that attribute. */
  function NoAttribute(v: Value, attr: string): string {
    "'" + TypeName(v) + "' object has no attribute '" + attr + "'"
  }

  /** The message of the TypeError raised by `x in v` when `v` is not a container. */
  function NotIterable(v: Value): string {
    "argument of type '" + TypeName(v) + "' is not iterable"
  }

  /** `row.get(key, default)` */
  function Get(row: Row, key: string, default: Value): Value {
    if key in row then row[key] else default
  }

  /** Python's `needle in container` for a string needle. */
  function PyIn(needle: string, container: Value): (r: Outcome<bool>)
    ensures container.Dict? ==> r == Ok(needle in container.fields)
    ensures r.Err? <==> !(container.Dict? || container.List? || container.Str?)
  {
    match container
    case Dict(m) => Ok(needle in m)
    case List(xs) => Ok(Str(needle) in xs)
    case Str(s) => Ok(IsSubstring(needle, s))
    case _ => Err(NotIterable(container))
  }

  /** `len(v)`; a scalar has no length. */
  function PyLen(v: Value): (r: Outcome<nat>)
    ensures r.Ok? <==> (v.Str? || v.List? || v.Dict?)
  {
    match v
    case Str(s) => Ok(|s|)
    case List(xs) => Ok(|xs|)
    case Dict(m) => Ok(|m.Keys|)
    case _ => Err("object of type '" + TypeName(v) + "' has no len()")
  }

  /** A cell of a table read from CSV: a scalar, never a list or a dict. */
  predicate CsvCell(v: Value) {
    !v.List? && !v.Dict?
  }

  /** `pd.isna(v)` for a scalar cell. */
  predicate IsMissing(v: Value) {
    v.Null? || v.NaN?
  }

  /** A table read from CSV: its column names and its rows. */
  datatype Table = Table(columns: seq<string>, rows: seq<Row>)

  /** A row whose participant_uuid cell is present and not missing. */
  predicate HasUuid(row: Row) {
    "participant_uuid" in row && !IsMissing(row["participant_uuid"])
  }

  /** The participant_uuid of a row, as text: the key rows are grouped and matched by. */
  function UuidKey(py: Builtins, row: Row): string {
    PyStr(py, Get(row, "participant_uuid", Str("")))
  }

  /**
   * The Python built-ins the scripts call and the model does not define:
   * `repr` stands for `str()` of a float, list or dict; the rest are the codecs.
   */
  datatype Builtins = Builtins(
    repr: Value -> string,
    jsonLoads: string -> Outcome<Value>,
    jsonDumps: Value -> string,
    literalEval: string -> Outcome<Value>,
    /** `eval` of a cell, which the scripts use on Python-literal text. */
    pyEval: string -> Outcome<Value>,
    b64decode: string -> Outcome<Bytes>,
    b64encode: Bytes -> string,
    utf8Decode: Bytes -> Outcome<string>,
    utf8Encode: string -> Bytes,
    sha256Hex: string -> string,
    parseFloat: string -> Option<real>)

  /** Python's `str(v)`: exact for None, NaN, booleans, integers and strings. */
  function PyStr(py: Builtins, v: Value): (r: string)
    ensures v.Str? ==> r == v.s
    ensures v.Int? ==> r == IntToString(v.i)
    ensures v.Null? ==> r == "None"
  {
    match v
    case Null => "None"
    case NaN => "nan"
    case Bool(b) => if b then "True" else "False"
    case Int(i) => IntToString(i)
    case Str(s) => s
    case _ => py.repr(v)
  }

  /** `json.loads(s)` followed by decoding the bytes first, as `json.loads(b.decode('utf-8'))`. */
  function DecodeJson(py: Builtins, b: Bytes): Outcome<Value> {
    match py.utf8Decode(b)
    case Err(m) => Err(m)
    case Ok(text) => py.jsonLoads(text)
  }

  /** Appending is associative; stated once so that proofs need not re-derive it element by element. */
  lemma AppendAssociative<T>(a: seq<T>, b: seq<T>, c: seq<T>)
    ensures a + (b + c) == (a + b) + c
  {
  }
}
