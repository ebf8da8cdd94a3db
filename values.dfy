/** Optional values, for lookups that may find nothing. */
module Wrappers {
  datatype Option<T> = None | Some(value: T)
}

/**
 * The Python values that make up an experiment configuration, and the two
 * Python exceptions the candidate rules can raise while reading them.
 */
module Values {

  /** `KeyError` for a missing dict key; `TypeError` for subscripting a
      non-dict, or ordering or subtracting something that is not a number. */
  datatype PyError = KeyError(key: string) | TypeError

  datatype Result<T> = Ok(value: T) | Err(error: PyError)

  /** A configuration value. Python's `int` and `float` are both `Num`;
      `bool` is kept apart from the numbers. */
  datatype Value =
    | Null
    | Bool(b: bool)
    | Num(num: real)
    | Str(str: string)
    | List(items: seq<Value>)
    | Dict(entries: map<string, Value>)

  /** A configuration dict: one candidate, or the base it is expanded from. */
  type Config = map<string, Value>

  /** Python truthiness: `None`, `False`, zero and empty containers are false. */
  predicate Truthy(v: Value) {
    match v
    case Null => false
    case Bool(b) => b
    case Num(x) => x != 0.0
    case Str(s) => s != []
    case List(xs) => xs != []
    case Dict(m) => m != map[]
  }

  /** `config[key]`. */
  function Get(c: Config, key: string): (r: Result<Value>)
    ensures r.Ok? <==> key in c
    ensures r.Ok? ==> r.value == c[key]
    ensures r.Err? ==> r.error == KeyError(key)
  {
    if key in c then Ok(c[key]) else Err(KeyError(key))
  }

  /** `v[key]` where `v` should be a dict. */
  function Subscript(v: Value, key: string): (r: Result<Value>)
    ensures r.Ok? <==> v.Dict? && key in v.entries
    ensures r.Ok? ==> r.value == v.entries[key]
    ensures r.Err? ==> r.error == (if v.Dict? then KeyError(key) else TypeError)
  {
    match v
    case Dict(m) => if key in m then Ok(m[key]) else Err(KeyError(key))
    case _ => Err(TypeError)
  }

  predicate AllNums(xs: seq<Value>) {
    forall i :: 0 <= i < |xs| ==> xs[i].Num?
  }

  /** Python's `max` over a non-empty list of numbers. */
  function MaxNum(xs: seq<Value>): (m: real)
    requires |xs| > 0 && AllNums(xs)
    ensures Num(m) in xs
    ensures forall i :: 0 <= i < |xs| ==> xs[i].num <= m
  {
    if |xs| == 1 then xs[0].num
    else
      var rest := MaxNum(xs[1..]);
      if xs[0].num >= rest then xs[0].num else rest
  }
}
