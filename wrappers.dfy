/** Optional values and results with an error path, used across the model. */
module Wrappers {

  /** A value that may be absent (Python's `None`). */
  datatype Option<+T> = None | Some(value: T)

  /** The outcome of an operation that can raise instead of returning. */
  datatype Result<+T> = Ok(value: T) | Err(reason: string)
}

/** The values held in the Python dictionaries the scraper and the pipeline exchange. */
module Dicts {

  /** A dictionary value: `None`, a string, or an integer row id. */
  datatype Value = Null | Text(s: string) | Int(n: int)

  type Dict = map<string, Value>

  /** Python truthiness: `None`, `''` and `0` are false. */
  predicate Truthy(v: Value)
  {
    match v
    case Null => false
    case Text(s) => s != ""
    case Int(n) => n != 0
  }

  /** `d.get(k)`: the value under `k`, or `None` when the key is absent. */
  function Get(d: Dict, k: string): Value
  {
    if k in d then d[k] else Null
  }

  /** `d.get(k, default)`. */
  function GetOr(d: Dict, k: string, default: Value): Value
  {
    if k in d then d[k] else default
  }
}

