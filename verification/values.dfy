/** The values a lead dictionary holds (what `json.loads` gives back for the
    fields of the form) and the Python conversions the code applies to them. */
module Values {
  import opened Text

  /** A dictionary value: `None` (JSON null, written `Null` here), a string or an integer. */
  datatype Value = Null | Str(s: string) | Int(n: int)

  /** Python truthiness: `None`, `""` and `0` are false, everything else true.
      This is also exactly the test `v in (None, "", 0)` negated. */
  predicate Truthy(v: Value) {
    match v
    case Null => false
    case Str(s) => s != []
    case Int(n) => n != 0
  }

  /** The falsy values are exactly the three that `is_complete` lists,
      `None`, `""` and `0`, so `not v` and `v in (None, "", 0)` agree. */
  lemma FalsyValues(v: Value)
    ensures !Truthy(v) <==> v == Null || v == Str("") || v == Int(0)
  {
  }

  /** A lead dictionary, keyed by field name. */
  type Dict = map<string, Value>

  /** `d.get(k)`. */
  function Get(d: Dict, k: string): (v: Value)
    ensures k !in d ==> v == Null
  {
    if k in d then d[k] else Null
  }

  /** `str(v or "")`: the text of a value, empty for every falsy value. */
  function AsText(v: Value): (t: string)
    ensures t == [] <==> !Truthy(v)
    ensures v.Str? ==> t == v.s
  {
    match v
    case Null => ""
    case Str(s) => s
    case Int(n) => if n == 0 then "" else IntToString(n)
  }

  /** The outcome of a Python call that may raise an exception. */
  datatype Outcome<T> = Returned(value: T) | Raised

  /** `int(v)`: an integer is itself, a string is parsed, and `None` or a string
      that does not parse raise. */
  function PyInt(v: Value): (r: Outcome<int>)
    ensures v.Int? ==> r == Returned(v.n)
    ensures r.Raised? <==> v.Null? || (v.Str? && ParseInt(v.s).None?)
  {
    match v
    case Null => Raised
    case Int(n) => Returned(n)
    case Str(s) => match ParseInt(s) case Some(n) => Returned(n) case None => Raised
  }
}
