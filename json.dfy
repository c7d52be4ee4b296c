/**
 * JSON values as the backend sends them with `res.json` and the client
 * reads them after `res.json()`, together with the two pieces of
 * JavaScript semantics the client relies on: truthiness and `a || b`.
 * Numbers are unbounded integers here. The page only sends integers, but
 * POST /api/moods would store a fractional number unchecked.
 */
module Json {
  import opened Wrappers

  datatype Json =
    | JNull
    | JBool(b: bool)
    | JNum(n: int)
    | JStr(s: string)
    | JArr(items: seq<Json>)
    | JObj(fields: seq<(string, Json)>)

  /** The value of the last field named `key` (as `JSON.parse` keeps the last duplicate). */
  function LookupField(fields: seq<(string, Json)>, key: string): (r: Option<Json>)
    ensures r.None? <==> forall i :: 0 <= i < |fields| ==> fields[i].0 != key
    ensures r.Some? ==> exists i :: 0 <= i < |fields| && fields[i] == (key, r.value) &&
                                   forall j :: i < j < |fields| ==> fields[j].0 != key
  {
    if |fields| == 0 then None
    else if fields[|fields| - 1].0 == key then Some(fields[|fields| - 1].1)
    else
      var r := LookupField(fields[..|fields| - 1], key);
      assert forall i :: 0 <= i < |fields| - 1 ==> fields[..|fields| - 1][i] == fields[i];
      r
  }

  /**
   * `j?.key`: the property of an object, and `undefined` (None) for a
   * missing object, a missing key, or a value of another kind.
   */
  function Member(j: Option<Json>, key: string): (r: Option<Json>)
    ensures r.Some? ==> j.Some? && j.value.JObj?
    ensures j.Some? && j.value.JObj? ==> r == LookupField(j.value.fields, key)
  {
    match j
    case Some(JObj(fields)) => LookupField(fields, key)
    case _ => None
  }

  /** JavaScript truthiness of a JSON value: null, false, 0 and "" are falsy. */
  predicate Truthy(j: Json) {
    match j
    case JNull => false
    case JBool(b) => b
    case JNum(n) => n != 0
    case JStr(s) => s != ""
    case JArr(_) => true
    case JObj(_) => true
  }

  /** `v || fallback` where `v` may be `undefined`. */
  function OrElse(v: Option<Json>, fallback: Json): (r: Json)
    ensures v.Some? && Truthy(v.value) ==> r == v.value
    ensures (v.None? || !Truthy(v.value)) ==> r == fallback
  {
    if v.Some? && Truthy(v.value) then v.value else fallback
  }

  /** `x ? 1 : 0`, the way the backend stores a boolean column. */
  function AsFlag(j: Json): (r: int)
    ensures r == 0 || r == 1
    ensures r == 1 <==> Truthy(j)
  {
    if Truthy(j) then 1 else 0
  }
}
