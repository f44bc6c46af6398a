/** Values shared by every part of the model: optional values, the exceptions the
    program raises or catches, a success-or-exception outcome, and JSON-like data
    (parsed YAML, request bodies, conversations and dumped records). */
module Common {

  datatype Option<+T> = None | Some(value: T)

  /** The exceptions the program distinguishes. `HttpException` is FastAPI's
      HTTPException; `OutOfMemory` is torch.cuda.OutOfMemoryError. */
  datatype Exception =
    | OutOfMemory(message: string)
    | StopIteration
    | HttpException(status: int, detail: string)
    | ValueError(message: string)
    | RuntimeError(message: string)
    | TypeError(message: string)
    | AttributeError(message: string)
    | AssertionError(message: string)
    | ValidationError(message: string)
    | OtherError(message: string)

  /** `str(e)` of an exception. Starlette renders an HTTPException as
      "<status>: <detail>"; a bare StopIteration renders as the empty string. */
  function Str(e: Exception): string
  {
    match e
    case StopIteration => ""
    case HttpException(status, detail) => IntToString(status) + ": " + detail
    case OutOfMemory(m) => m
    case ValueError(m) => m
    case RuntimeError(m) => m
    case TypeError(m) => m
    case AttributeError(m) => m
    case AssertionError(m) => m
    case ValidationError(m) => m
    case OtherError(m) => m
  }

  /** Either a value or a raised exception: the model of a Python call that
      returns or raises. */
  datatype Outcome<+T> = Ok(value: T) | Raise(exc: Exception) {
    predicate IsFailure() { Raise? }
    function PropagateFailure<U>(): Outcome<U> requires Raise? { Raise(exc) }
    function Extract(): T requires Ok? { value }
  }

  /** JSON/YAML data as Python holds it after parsing: None, bool, int,
      float (opaque), str, list and dict with string keys. */
  datatype Json =
    | JNull
    | JBool(b: bool)
    | JInt(i: int)
    | JFloat(f: real)
    | JStr(s: string)
    | JList(items: seq<Json>)
    | JObj(fields: map<string, Json>)

  /** pydantic's `list[str]` validation of a JSON list: its strings, or None
      if some item is not a string. */
  function Strings(items: seq<Json>): (r: Option<seq<string>>)
    ensures r.Some? <==> forall i :: 0 <= i < |items| ==> items[i].JStr?
    ensures r.Some? ==> |r.value| == |items| && forall i :: 0 <= i < |items| ==> items[i] == JStr(r.value[i])
  {
    if items == [] then Some([])
    else match (items[0], Strings(items[1..]))
      case (JStr(s), Some(rest)) => Some([s] + rest)
      case _ => None
  }

  /** Python's `d.get(key)` on a dict: the value, or None when the key is missing. */
  function Get(fields: map<string, Json>, key: string): Json
  {
    if key in fields then fields[key] else JNull
  }

  function DigitChar(d: nat): char
    requires d < 10
  {
    "0123456789"[d]
  }

  /** Decimal rendering of an integer, as `str(n)`. */
  function NatToString(n: nat): (s: string)
    ensures |s| > 0
    decreases n
  {
    if n < 10 then [DigitChar(n)] else NatToString(n / 10) + [DigitChar(n % 10)]
  }

  function IntToString(n: int): string
  {
    if n < 0 then "-" + NatToString(-n) else NatToString(n)
  }

  /** True when `p` is a prefix of `s`. */
  predicate StartsWith(s: string, p: string)
  {
    |p| <= |s| && s[..|p|] == p
  }
}
