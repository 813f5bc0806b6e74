/**
 The dynamically typed values and exceptions that the assistant's Python code
 inspects, written as explicit datatypes.
 */
module Values {

  datatype Option<+T> = None | Some(value: T)

  /** A Python value as seen by the duck-typed code: a `str`, a `list`, a `dict`
      with string keys, an arbitrary object that may expose a `content`
      attribute, or anything else (None, numbers, booleans), whose truthiness
      is recorded. Objects are modelled as exposing no `get` method.
      Python's None as a value is `Other(false)`; as the result of a lookup
      it is the `None` of `Option`. The one place where the two meet is a
      message object whose `content` is None: the model's extraction then
      gives `Some(Other(false))` where Python gives None, and the reply
      fallback treats both alike, since neither is truthy. */
  datatype Value =
    | Str(s: string)
    | List(items: seq<Value>)
    | Dict(entries: map<string, Value>)
    | Obj(content: Option<Value>)
    | Other(truthy: bool)

  /** The exceptions that the modelled code raises or lets escape. */
  datatype Exception =
    | ValueError(message: string)
    | RuntimeError(message: string)
    | KeyError(key: string)
    | IndexError
    | TypeError
    | AttributeError(name: string)
    | External(description: string)  // raised inside a collaborator that is not modelled

  /** A call either returns a value or raises. */
  datatype Outcome<+T> = Returned(value: T) | Raised(exc: Exception)

  /** Python truthiness of a value. */
  predicate Truthy(v: Value)
  {
    match v
    case Str(s) => s != ""
    case List(items) => items != []
    case Dict(entries) => entries != map[]
    case Obj(_) => true
    case Other(t) => t
  }

  /** `hasattr(v, "content")`. */
  predicate HasContent(v: Value)
  {
    v.Obj? && v.content.Some?
  }

  /** `"key" in d and isinstance(d[key], str)` for a dict `d`. */
  predicate HasStrAt(d: map<string, Value>, key: string)
  {
    key in d && d[key].Str?
  }

  /** `s.startswith(p)`. */
  predicate StartsWith(s: string, p: string)
  {
    |p| <= |s| && s[..|p|] == p
  }

  /** An environment (`os.environ`): variable names to values. */
  type Env = map<string, string>

  /** `os.environ.get(key)`. */
  function EnvGet(env: Env, key: string): Option<string>
  {
    if key in env then Some(env[key]) else None
  }

  /** Truthiness of `os.environ.get(key)`: present and non-empty. */
  predicate EnvSet(env: Env, key: string)
  {
    key in env && env[key] != ""
  }
}
