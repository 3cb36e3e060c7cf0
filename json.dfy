/** Python values as they travel through `json.loads` / `json.dumps`, and
    the foreign text codecs, passed in as functions. */
module Json {

  datatype Option<+T> = None | Some(value: T)
  {
    function GetOr(default: T): T
    {
      match this
      case Some(v) => v
      case None => default
    }
  }

  /** A decoded JSON value. Python keeps `int` and `float` apart, and so does
      this type. A decoded object is a `dict`; the order of its keys plays no
      part anywhere it is read, so it is a map here. */
  datatype Json =
    | JNull
    | JBool(b: bool)
    | JInt(i: int)
    | JFloat(f: real)
    | JStr(s: string)
    | JArr(items: seq<Json>)
    | JObj(fields: map<string, Json>)

  /** `json.loads` (None when it raises `JSONDecodeError`) and `json.dumps`. */
  datatype Codec = Codec(parse: string -> Option<Json>, dumps: Json -> string)

  /** What `json` guarantees and the proofs about whole exchanges rely on:
      decoding what was encoded gives the value back. */
  ghost predicate RoundTrips(c: Codec)
  {
    forall j :: c.parse(c.dumps(j)) == Some(j)
  }

  /** An encoded object starts with `{` and ends with `}`. */
  predicate Braced(t: string)
  {
    |t| >= 2 && t[0] == '{' && t[|t| - 1] == '}'
  }

  ghost predicate EncodesObjectsBraced(c: Codec)
  {
    forall m :: Braced(c.dumps(JObj(m)))
  }

  /** Python truthiness (`if not v`) of a decoded value. */
  predicate Falsy(v: Json)
  {
    match v
    case JNull => true
    case JBool(b) => !b
    case JInt(i) => i == 0
    case JFloat(f) => f == 0.0
    case JStr(s) => s == ""
    case JArr(items) => items == []
    case JObj(fields) => fields == map[]
  }

  /** `float(v)`: numbers and booleans convert, a string converts when the
      foreign float parser accepts it, and everything else raises (None). */
  function ToFloat(v: Json, parseFloat: string -> Option<real>): (r: Option<real>)
    ensures v.JFloat? ==> r == Some(v.f)
    ensures v.JInt? ==> r == Some(v.i as real)
    ensures v.JBool? ==> r == Some(if v.b then 1.0 else 0.0)
    ensures v.JStr? ==> r == parseFloat(v.s)
    ensures v.JNull? || v.JArr? || v.JObj? ==> r == None
  {
    match v
    case JInt(i) => Some(i as real)
    case JFloat(f) => Some(f)
    case JBool(b) => Some(if b then 1.0 else 0.0)
    case JStr(s) => parseFloat(s)
    case _ => None
  }
}
