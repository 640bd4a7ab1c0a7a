/** `array.find(...)`, and the detail views' lookup of a record by the id in
    the route, compared as strings. */
module Lookup {
  import opened Wrappers
  import opened JsValues

  /** The index of the first element that satisfies `p`. */
  function FindFirst<T>(xs: seq<T>, p: T -> bool): (r: Option<nat>)
    ensures r.None? <==> forall i :: 0 <= i < |xs| ==> !p(xs[i])
    ensures r.Some? ==> r.value < |xs| && p(xs[r.value])
    ensures r.Some? ==> forall i :: 0 <= i < r.value ==> !p(xs[i])
  {
    if xs == [] then None
    else if p(xs[0]) then Some(0)
    else
      match FindFirst(xs[1..], p)
      case None => None
      case Some(k) => Some(k + 1)
  }

  predicate IdMatches<T>(x: T, idOf: T -> Value, routeId: string)
  {
    ToStr(idOf(x)) == routeId
  }

  /** `xs.find((x) => String(x.id) === String(routeId))`, with `undefined`
      (no match) as `None`. */
  function FindById<T>(xs: seq<T>, idOf: T -> Value, routeId: string): (r: Option<T>)
    ensures r.None? <==> forall i :: 0 <= i < |xs| ==> !IdMatches(xs[i], idOf, routeId)
    ensures r.Some? ==> exists k :: 0 <= k < |xs| && xs[k] == r.value && IdMatches(xs[k], idOf, routeId)
                          && forall i :: 0 <= i < k ==> !IdMatches(xs[i], idOf, routeId)
  {
    match FindFirst(xs, x => IdMatches(x, idOf, routeId))
    case None => None
    case Some(k) => Some(xs[k])
  }

  /** The `id` property of a backend record. */
  function RecordId(r: Record): Value
  {
    Get(r, "id")
  }
}
