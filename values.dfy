/** Values that cross the HTTP boundary into the agents: the scalar JSON values a search filter
    may hold, their Python truthiness and their Python `str()`, and optional page text with
    JavaScript truthiness. */
module Values {
  import opened Wrappers
  import Text

  /** A JSON scalar as Python sees it after decoding: `None`, `bool`, `int` or `str`. */
  datatype Scalar = Null | Bool(b: bool) | Int(i: int) | Str(s: string)

  /** Python truthiness: `None`, `False`, `0` and `""` are falsy. */
  predicate Truthy(v: Scalar) {
    match v
    case Null => false
    case Bool(b) => b
    case Int(i) => i != 0
    case Str(s) => s != ""
  }

  /** Python's `str(v)`, which an f-string interpolation uses. */
  function Show(v: Scalar): (r: string)
    ensures Truthy(v) ==> r != ""
  {
    match v
    case Null => "None"
    case Bool(b) => if b then "True" else "False"
    case Int(i) => Text.IntToString(i)
    case Str(s) => s
  }

  /** `filters.get(key)` guarded by `if filters:`; a missing mapping or key reads as `None`. */
  function Lookup(filters: Option<map<string, Scalar>>, key: string): (r: Option<Scalar>)
    ensures r.Some? <==> filters.Some? && key in filters.value
    ensures r.Some? ==> r.value == filters.value[key]
  {
    if filters.Some? && key in filters.value then Some(filters.value[key]) else None
  }

  /** Truthiness of `filters.get(key)`. */
  predicate Given(v: Option<Scalar>) { v.Some? && Truthy(v.value) }

  /** JavaScript (and Python) truthiness of text that may be absent: present and non-empty. */
  predicate Present(s: Option<string>) { s.Some? && s.value != "" }

  /** `x || null` for page text. */
  function OrNull(s: Option<string>): (r: Option<string>)
    ensures r.Some? <==> Present(s)
  {
    if Present(s) then s else None
  }
}
