/** Values shared by every part of the model: optional values, results of
    endpoints that may raise an HTTP error, and the Python values that the
    payment handlers put into the keyword dictionaries they hand to the
    payment processor's SDK. */
module Common {

  datatype Option<+T> = None | Some(value: T)

  /** An endpoint either answers or raises an HTTPException. */
  datatype Result<+R, +E> = Success(value: R) | Failure(error: E)

  /** FastAPI's HTTPException(status_code, detail). */
  datatype HttpError = HttpError(status: int, detail: string)

  /** The Python values that appear in the dictionaries built here. */
  datatype Value =
    | Null
    | Bool(b: bool)
    | Int(n: int)
    | Str(s: string)
    | Dict(d: map<string, Value>)

  type Dict = map<string, Value>

  /** Python truthiness of `Optional[int]`: None and 0 are false. */
  predicate IntTruthy(x: Option<int>) {
    x.Some? && x.value != 0
  }

  /** Python truthiness of `Optional[str]`: None and "" are false. */
  predicate StrTruthy(x: Option<string>) {
    x.Some? && x.value != ""
  }

  /** Python truthiness of `Optional[dict]`: None and {} are false. */
  predicate DictTruthy(x: Option<Dict>) {
    x.Some? && x.value != map[]
  }

  /** `x or default` for an optional string. */
  function StrOr(x: Option<string>, default: string): (r: string)
    ensures StrTruthy(x) ==> r == x.value
    ensures !StrTruthy(x) ==> r == default
  {
    if StrTruthy(x) then x.value else default
  }

  /** `x or {}` for an optional dictionary (the value, not its identity). */
  function DictOrEmpty(x: Option<Dict>): (r: Dict)
    ensures x.Some? ==> r == x.value
    ensures x.None? ==> r == map[]
  {
    if DictTruthy(x) then x.value else map[]
  }

  /** An optional string as a Python value (None becomes null). */
  function StrOrNull(x: Option<string>): Value {
    if x.Some? then Str(x.value) else Null
  }

  /** The text an f-string gives for an optional string: None prints as "None". */
  function Format(x: Option<string>): string {
    if x.Some? then x.value else "None"
  }
}
