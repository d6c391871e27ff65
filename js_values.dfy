/** JavaScript values, as far as the prediction handlers look at them: the
    `output` and `error` fields of a status reply, and the `imageUrl` that a
    handler answers with. */
module JsValues {

  /** A JSON-shaped JavaScript value. `Undefined` is what reading a missing
      field or indexing past the end of an array gives. Numbers are integers
      here: no handler computes with them, they are only tested for truth. */
  datatype JsValue =
    | Undefined
    | Null
    | Bool(b: bool)
    | Num(n: int)
    | Str(s: string)
    | Arr(elems: seq<JsValue>)
    | Obj(fields: seq<(string, JsValue)>)

  /** JavaScript's ToBoolean, which `!result` in every poll-loop guard
      applies. Every array and every object is truthy, the empty ones too. */
  predicate Truthy(v: JsValue)
    ensures v.Arr? || v.Obj? ==> Truthy(v)
    ensures Truthy(v) ==> v != Undefined && v != Null && v != Str("")
  {
    match v
    case Undefined => false
    case Null => false
    case Bool(b) => b
    case Num(n) => n != 0
    case Str(s) => s != ""
    case Arr(_) => true
    case Obj(_) => true
  }

  /** The falsy values are exactly these five (NaN and -0 are not numbers of
      this model). */
  lemma FalsyValues(v: JsValue)
    ensures !Truthy(v) <==> v in {Undefined, Null, Bool(false), Num(0), Str("")}
  {
  }

  /** `Array.isArray(v) ? v[0] : v`: the first element of an array, which is
      `undefined` for the empty array; any other value unchanged. */
  function FirstIfArray(v: JsValue): (r: JsValue)
    ensures v.Arr? && v.elems != [] ==> r == v.elems[0]
    ensures v == Arr([]) ==> r == Undefined
    ensures !v.Arr? ==> r == v
  {
    match v
    case Arr(elems) => if |elems| > 0 then elems[0] else Undefined
    case _ => v
  }

  /** A single URL and a list that starts with that URL normalise to the same
      value; the rest of the list is dropped. */
  lemma FirstIfArrayAgreesOnHead(u: JsValue, rest: seq<JsValue>)
    requires !u.Arr?
    ensures FirstIfArray(Arr([u] + rest)) == FirstIfArray(u) == u
  {
  }

  /** Normalisation can make a truthy value falsy only when that value is an
      array: the empty array, or one whose first element is falsy. */
  lemma FirstIfArrayLosesTruthOnlyForArrays(v: JsValue)
    requires Truthy(v) && !Truthy(FirstIfArray(v))
    ensures v.Arr? && (v.elems == [] || !Truthy(v.elems[0]))
  {
  }
}
