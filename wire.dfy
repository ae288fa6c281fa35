/** Values that flow through the response layer, the errors it raises, and
    the foreign collaborators it calls (JSON encoder, text encoder, schema
    dumper, Python's str() of composite values) passed in as capabilities. */
module Wire {

  type byte = b: int | 0 <= b < 256

  type ByteString = seq<byte>

  datatype Option<+T> = None | Some(value: T)

  /** The four iterable types a response accepts: list, tuple, set and the
      database cursor. A set is given in its iteration order. */
  datatype IterKind = List | Tuple | Set | Cursor

  /** A Python value handed to a response. Floats are opaque. */
  datatype Value =
    | Null
    | Bool(b: bool)
    | Int(i: int)
    | Float(bits: bv64)
    | Str(s: string)
    | Bytes(bytes: ByteString)
    | Dict(entries: seq<(string, Value)>)
    | Iter(kind: IterKind, items: seq<Value>)
    | Model(className: string, id: nat)
    | Generator(isAsync: bool, chunks: seq<Value>)
    | Other(className: string)

  /** The values `isinstance(v, int)` accepts: `bool` is a subclass of `int`. */
  type StatusCode = v: Value | v.Int? || v.Bool? witness Int(200)

  const HTTP_200_OK: int := 200
  const HTTP_415_UNSUPPORTED_MEDIA_TYPE: int := 415

  /** The exceptions the response layer raises or lets through. */
  datatype Error =
    | TypeError(message: string)
    | AttributeError(typeName: string, attribute: string)
    | ValidationError
    | JsonEncodeError
    | APIException(detail: string, statusCode: int)

  datatype Result<+T> = Ok(value: T) | Err(error: Error) {
    predicate IsFailure() { Err? }
    function PropagateFailure<U>(): Result<U> requires Err? { Err(error) }
    function Extract(): T requires Ok? { value }
  }

  datatype Outcome = Pass | Fail(error: Error)

  /** The foreign code the response layer calls. */
  datatype Runtime = Runtime(
    jsonDumps: Value -> Option<ByteString>,  // orjson.dumps; None when it refuses the value
    encode: string -> ByteString,            // str.encode() with the default UTF-8 codec
    modelDump: (string, nat) -> Value,       // BaseModel.model_dump() of a model instance
    show: Value -> string)                   // str() of floats, bytes, containers and objects

  /** The short name Python prints for `type(v)`. */
  function TypeName(v: Value): string {
    match v
    case Null => "NoneType"
    case Bool(_) => "bool"
    case Int(_) => "int"
    case Float(_) => "float"
    case Str(_) => "str"
    case Bytes(_) => "bytes"
    case Dict(_) => "dict"
    case Iter(List, _) => "list"
    case Iter(Tuple, _) => "tuple"
    case Iter(Set, _) => "set"
    case Iter(Cursor, _) => "panther.db.cursor.Cursor"
    case Model(c, _) => c
    case Generator(isAsync, _) => if isAsync then "async_generator" else "generator"
    case Other(c) => c
  }

  /** `str(type(v))`, as it appears in the response layer's error messages. */
  function ClassRepr(v: Value): string {
    "<class '" + TypeName(v) + "'>"
  }
}
