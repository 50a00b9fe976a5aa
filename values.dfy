/**
 * JavaScript values as the client sees them: response bodies, header values
 * and request configurations are untyped JSON-like data, and the client's
 * decisions depend on JavaScript truthiness (`||`, `!x`) and optional
 * chaining (`x?.error`).
 */
module Values {
  import opened Wrappers

  /** A JavaScript value. Numbers are restricted to integers. */
  datatype Json =
    | Undefined
    | Null
    | Bool(b: bool)
    | Num(n: int)
    | Str(s: string)
    | Arr(items: seq<Json>)
    | Obj(fields: map<string, Json>)

  /** A header bag: header name to header value. */
  type Headers = map<string, Json>

  /** JavaScript truthiness: `undefined`, `null`, `false`, `0` and `""` are falsy. */
  predicate Truthy(v: Json) {
    match v
    case Undefined => false
    case Null => false
    case Bool(b) => b
    case Num(n) => n != 0
    case Str(s) => s != ""
    case Arr(_) => true
    case Obj(_) => true
  }

  /** JavaScript `a || b`. */
  function Or(a: Json, b: Json): Json {
    if Truthy(a) then a else b
  }

  /** JavaScript `v?.name`: a missing property, or any non-object, gives `undefined`. */
  function Field(v: Json, name: string): Json {
    if v.Obj? && name in v.fields then v.fields[name] else Undefined
  }

  /** Truthiness of an optional string (absent or empty is falsy). */
  predicate Present(o: Option<string>) {
    o.Some? && o.value != ""
  }

  /**
   * The service-provided message `(body as ApiErrorResponse)?.error`:
   * the `error` property of the body when it is a string.
   */
  function ErrorMessage(body: Json): (m: Option<string>)
    ensures m.Some? <==> body.Obj? && "error" in body.fields && body.fields["error"].Str?
    ensures m.Some? ==> body.fields["error"] == Str(m.value)
  {
    match Field(body, "error")
    case Str(s) => Some(s)
    case _ => None
  }
}
