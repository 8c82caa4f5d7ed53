/** Python values, exceptions and keyword-argument passing, as the rest of the model sees them. */
module PyValues {

  /** A Python value as it travels through the agent helpers and the SQL UDF:
      the JSON-like part exactly, and every other object (an LLM client, a class,
      a callable filter) as an opaque tag. */
  datatype Value =
    | Null
    | Bool(b: bool)
    | Int(i: int)
    | Float(r: real)
    | Str(s: string)
    | List(items: seq<Value>)
    | Dict(entries: map<string, Value>)
    | Opaque(tag: string)

  /** A chat message: a string-keyed dictionary. */
  type Message = map<string, Value>

  /** The exceptions the modelled code can raise. */
  datatype PyError =
    | IndexError
    | KeyError(key: string)
    | TypeError
    | AttributeError(attribute: string)
    | ValueError(message: string)

  datatype Option<T> = None | Some(value: T)

  /** Either a returned value or a raised exception. */
  datatype Result<T> = Ok(value: T) | Err(error: PyError)

  /** `d.get(key, default)` */
  function Get(d: map<string, Value>, key: string, default: Value): (r: Value)
    ensures key in d ==> r == d[key]
    ensures key !in d ==> r == default
  {
    if key in d then d[key] else default
  }

  /** The keyword arguments a call `f(k1=v1, ..., **extra)` receives. Python raises
      TypeError ("got multiple values for keyword argument") when `extra` repeats
      one of the explicit keywords. */
  function MergeKeywords<V>(explicit: map<string, V>, extra: map<string, V>): (r: Result<map<string, V>>)
    ensures r.Ok? <==> explicit.Keys !! extra.Keys
    ensures r.Err? ==> r.error == TypeError
    ensures r.Ok? ==> r.value.Keys == explicit.Keys + extra.Keys
    ensures r.Ok? ==> forall k :: k in explicit ==> r.value[k] == explicit[k]
    ensures r.Ok? ==> forall k :: k in extra ==> r.value[k] == extra[k]
  {
    if explicit.Keys !! extra.Keys then Ok(explicit + extra) else Err(TypeError)
  }
}
