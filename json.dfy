/**
 * JSON values as the Python code sees them after `response.json()`, the
 * error outcomes of the pipeline, and the few Python value operations the
 * core relies on (subscripting, truthiness, integer addition).
 */
module Json {

  /** A decoded JSON document. Python `True`/`False` are `Bool`, `None` is `Null`. */
  datatype Json =
    | Null
    | Bool(b: bool)
    | Int(i: int)
    | Str(s: string)
    | Array(items: seq<Json>)
    | Object(fields: map<string, Json>)

  /**
   * Why a pipeline run aborted. Every one of them is fatal: nothing in the
   * fetch-and-parse pipeline catches an exception.
   *  - HttpError: `raise_for_status` on a status in [400, 600)
   *  - SchemaMismatch: a KeyError or TypeError on an unexpected record shape
   *  - QueryErrors: a GraphQL response that carries an `errors` key
   *  - NeedPagination: a GraphQL page that reports `hasNextPage`
   *  - RecursionLimit: the paginator recursed deeper than the interpreter allows
   */
  datatype Error =
    | HttpError(status: int)
    | SchemaMismatch
    | QueryErrors
    | NeedPagination
    | RecursionLimit

  datatype Result<+T> = Success(value: T) | Failure(error: Error) {
    predicate IsFailure() { Failure? }
    function PropagateFailure<U>(): Result<U> requires Failure? { Failure(error) }
    function Extract(): T requires Success? { value }
  }

  datatype Option<+T> = None | Some(value: T)

  /** `j[k]` on a dict; any other receiver or a missing key raises. */
  function Field(j: Json, k: string): (r: Result<Json>)
    ensures r.Success? <==> j.Object? && k in j.fields
    ensures r.Success? ==> r.value == j.fields[k]
  {
    if j.Object? && k in j.fields then Success(j.fields[k]) else Failure(SchemaMismatch)
  }

  /** `j[k0][k1]...[kn]`: a chain of dict subscripts, failing at the first missing level. */
  function Path(j: Json, keys: seq<string>): (r: Result<Json>)
    decreases |keys|
  {
    if keys == [] then Success(j)
    else
      var next :- Field(j, keys[0]);
      Path(next, keys[1..])
  }

  /** Python truthiness of a JSON value (`if value:`). */
  predicate Truthy(j: Json) {
    match j
    case Null => false
    case Bool(b) => b
    case Int(i) => i != 0
    case Str(s) => s != ""
    case Array(items) => items != []
    case Object(fields) => fields != map[]
  }

  /**
   * The integer `n + j` adds to an int `n` in Python: an int as itself and a
   * bool as 0 or 1 (bool is a subclass of int); anything else is a TypeError.
   */
  function AsInt(j: Json): (r: Option<int>)
    ensures r.Some? <==> (j.Int? || j.Bool?)
  {
    match j
    case Int(i) => Some(i)
    case Bool(b) => Some(if b then 1 else 0)
    case _ => None
  }

  /** `dict(counter)` for an int-valued counter, as JSON. */
  function IntsJson(m: map<string, int>): (r: map<string, Json>)
    ensures r.Keys == m.Keys
    ensures forall k :: k in m ==> r[k] == Int(m[k])
  {
    map k | k in m :: Int(m[k])
  }

  function TallyJson(m: map<string, int>): (r: Json)
    ensures r.Object? && r.fields == IntsJson(m)
  {
    Object(IntsJson(m))
  }
}
