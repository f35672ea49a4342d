/**
 * A parsed JSON payload as Python's `json` module hands it to the handler,
 * together with the few Python operations the handler applies to it:
 * truth value, `or`, `d.get(k)`, `d[k]` and `str(v)`. Evaluating `d[k]`
 * may raise; `Eval` records which exception, since the handler answers a
 * `KeyError` differently from any other exception.
 */
module PyJson {
  import opened PyText

  /** null, true/false, an integral number, any other number, text, list, object. */
  datatype Json =
    | JNull
    | JBool(b: bool)
    | JInt(i: int)
    | JFloat(f: real)
    | JStr(s: string)
    | JArray(items: seq<Json>)
    | JObject(fields: map<string, Json>)

  /** Python's truth value of the parsed value (`bool(v)`). */
  predicate Truthy(v: Json) {
    match v
    case JNull => false
    case JBool(b) => b
    case JInt(i) => i != 0
    case JFloat(f) => f != 0.0
    case JStr(s) => s != ""
    case JArray(items) => items != []
    case JObject(fields) => fields != map[]
  }

  /** The falsy values are exactly None, False, 0, 0.0, "", [] and {}. */
  lemma FalsyValues(v: Json)
    ensures !Truthy(v) <==>
      || v == JNull || v == JBool(false) || v == JInt(0) || v == JFloat(0.0)
      || v == JStr("") || v == JArray([]) || v == JObject(map[])
  {
  }

  /** Python's `a or b`: the first operand when it is truthy, else the second. */
  function Or(a: Json, b: Json): (r: Json)
    ensures Truthy(r) <==> Truthy(a) || Truthy(b)
    ensures r == a || r == b
    ensures Truthy(a) ==> r == a
    ensures !Truthy(a) ==> r == b
  {
    if Truthy(a) then a else b
  }

  /** The exception an expression raises: `KeyError(key)`, or anything else. */
  datatype Exc = KeyError(key: string) | OtherError

  /** The value an expression evaluates to, or the exception it raises. */
  datatype Eval<+T> = Value(v: T) | Raised(exc: Exc) {

    predicate IsFailure() {
      Raised?
    }

    function PropagateFailure<U>(): Eval<U>
      requires Raised?
    {
      Raised(exc)
    }

    function Extract(): T
      requires Value?
    {
      v
    }
  }

  /** `d[k]` on a dict: the value under `k`, or `KeyError(k)`. */
  function Index(fields: map<string, Json>, k: string): (r: Eval<Json>)
    ensures r.Value? <==> k in fields
    ensures r.Value? ==> r.v == fields[k]
    ensures r.Raised? ==> r.exc == KeyError(k)
  {
    if k in fields then Value(fields[k]) else Raised(KeyError(k))
  }

  /** `d.get(k)` on a dict: what `d[k]` gives when it succeeds, None where it raises. */
  function Field(fields: map<string, Json>, k: string): (r: Json)
    ensures Index(fields, k).Value? ==> r == Index(fields, k).v
    ensures Index(fields, k).Raised? ==> r == JNull
  {
    if k in fields then fields[k] else JNull
  }

  /** `d.get(k, default)` on a dict. */
  function FieldOr(fields: map<string, Json>, k: string, default: Json): (r: Json)
    ensures k in fields ==> r == Field(fields, k)
    ensures k !in fields ==> r == default
    ensures default == JNull ==> r == Field(fields, k)
  {
    if k in fields then fields[k] else default
  }

  /**
   * `d[k]` with a text key: a dict gives the value or raises `KeyError(k)`;
   * any other value raises TypeError (a list, a string, None, a number).
   */
  function Subscript(d: Json, k: string): (r: Eval<Json>)
    ensures r.Value? <==> d.JObject? && k in d.fields
    ensures r.Value? ==> r.v == d.fields[k]
    ensures r == Raised(KeyError(k)) <==> d.JObject? && k !in d.fields
    ensures r.Raised? && r.exc.KeyError? ==> r.exc.key == k
  {
    match d
    case JObject(fields) => Index(fields, k)
    case _ => Raised(OtherError)
  }

  /**
   * `str()` of a float, a list or a dict: Python's repr, which depends on
   * float printing, dict insertion order and string escaping, none of which
   * the model follows; it is a parameter of every operation that needs it.
   */
  type Repr = Json -> string

  /** `str(v)`, which is also what an f-string substitutes for `{v}`. */
  function Str(v: Json, repr: Repr): (r: string)
    ensures v.JStr? ==> r == v.s
    ensures v == JNull ==> r == "None"
    ensures v.JInt? ==> IsIntText(r) && ReadInt(r) == v.i
  {
    match v
    case JNull => "None"
    case JBool(b) => if b then "True" else "False"
    case JInt(i) => IntTextRoundTrip(i); IntText(i)
    case JStr(s) => s
    case _ => repr(v)
  }
}
