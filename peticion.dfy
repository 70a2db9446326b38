/**
 * The values a Django REST framework view reads from a decoded JSON body or a query string, and
 * the two Python conversions the views apply to them: truthiness (`if not x`) and `int(x)`.
 */
module Peticion {
  import opened Wrappers
  import opened Text

  /** A decoded JSON value. `JObject` records only how many members the object has. */
  datatype Json = JNull | JBool(b: bool) | JInt(i: int) | JStr(s: string) | JList(elems: seq<Json>) | JObject(size: nat)

  /** Python truthiness: `None`, `False`, `0`, `""`, `[]` and `{}` are false. */
  predicate Truthy(j: Json)
  {
    match j
    case JNull => false
    case JBool(b) => b
    case JInt(i) => i != 0
    case JStr(s) => s != ""
    case JList(e) => e != []
    case JObject(n) => n != 0
  }

  /** Why `int(x)` failed: `ValueError` (text that is not an integer) or `TypeError`. */
  datatype IntError = NoEntero | TipoInvalido

  /**
   * `int(x)`: a boolean is 0 or 1, an integer itself, text is read as `int(str)` reads it, and
   * `None`, a list or an object are a `TypeError`.
   */
  function PyIntJson(j: Json): (r: Result<int, IntError>)
    ensures j.JStr? ==> (r.Ok? <==> PyInt(j.s).Some?)
    ensures r.Err? && r.error == NoEntero ==> j.JStr?
  {
    match j
    case JBool(b) => Ok(if b then 1 else 0)
    case JInt(i) => Ok(i)
    case JStr(s) => (var n := PyInt(s); if n.Some? then Ok(n.value) else Err(NoEntero))
    case _ => Err(TipoInvalido)
  }

  /** A number sent as text reads back as that number. */
  lemma PyIntJsonOfText(n: nat)
    ensures PyIntJson(JStr(NatToString(n))) == Ok(n)
  {
    PyIntOfNatToString(n);
    TextoLeido(NatToString(n), n);
  }

  lemma TextoLeido(s: string, n: int)
    requires PyInt(s) == Some(n)
    ensures PyIntJson(JStr(s)) == Ok(n)
  {
  }

  /**
   * The key a lookup `Model.objects.get(id=x)` searches for. `None` turns the test into
   * `id IS NULL`, which no stored row meets (`Ok(None)`); any other value goes through `int(x)`,
   * whose `ValueError` or `TypeError` the lookup raises.
   */
  function ClaveJson(j: Json): (r: Result<Option<int>, IntError>)
    ensures r == Ok(None) <==> j == JNull
    ensures j != JNull ==> (r.Ok? <==> PyIntJson(j).Ok?)
    ensures j != JNull && r.Ok? ==> r.value == Some(PyIntJson(j).value)
    ensures j != JNull && r.Err? ==> r.error == PyIntJson(j).error
  {
    if j == JNull then Ok(None)
    else
      var n := PyIntJson(j);
      if n.Ok? then Ok(Some(n.value)) else Err(n.error)
  }

  /** A key sent as a number or as its text finds that key; only a list or an object raises a `TypeError`. */
  lemma ClaveJsonEfecto(n: nat, j: Json)
    ensures ClaveJson(JInt(n)) == Ok(Some(n)) && ClaveJson(JStr(NatToString(n))) == Ok(Some(n))
    ensures (ClaveJson(j).Err? && ClaveJson(j).error == TipoInvalido) <==> j.JList? || j.JObject?
  {
    PyIntJsonOfText(n);
  }
}
