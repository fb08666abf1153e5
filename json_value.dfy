/** A JSON document as `json.loads` hands it to Python code: parsing itself is not modelled. */
module JsonValue {

  /** JSON numbers, integral or not, are exact reals; an object is a map because Python keeps the last duplicate key. */
  datatype Json =
    | JNull
    | JBool(b: bool)
    | JNumber(num: real)
    | JString(str: string)
    | JArray(elems: seq<Json>)
    | JObject(fields: map<string, Json>)

  /** A value Python compares and multiplies as a number: `bool` is a subclass of `int`. */
  predicate IsNumeric(j: Json) {
    j.JNumber? || j.JBool?
  }

  /** The number Python's arithmetic sees: `True` is 1 and `False` is 0. */
  function NumValue(j: Json): real
    requires IsNumeric(j)
  {
    match j
    case JBool(b) => if b then 1.0 else 0.0
    case JNumber(r) => r
  }

  predicate AllNumeric(xs: seq<Json>) {
    forall i :: 0 <= i < |xs| ==> IsNumeric(xs[i])
  }

  function Numbers(xs: seq<Json>): (r: seq<real>)
    requires AllNumeric(xs)
    ensures |r| == |xs|
    ensures forall i :: 0 <= i < |xs| ==> r[i] == NumValue(xs[i])
  {
    seq(|xs|, i requires 0 <= i < |xs| => NumValue(xs[i]))
  }
}
