/**
 JSON values, and the adapter's strict equality on them.

 Numbers are split as Python's types are: an integer never equals a float. Floats
 are real numbers here, so NaN and the sign of zero are not part of this model.
 */
module Json {

  datatype Json =
    | Null
    | Bool(b: bool)
    | Int(n: int)
    | Float(r: real)
    | Str(s: string)
    | Arr(items: seq<Json>)
    | Obj(fields: map<string, Json>)

  /** Compares two values type by type, then element by element. */
  predicate ValuesEqual(left: Json, right: Json)
    decreases left
  {
    match (left, right)
    case (Null, Null) => true
    case (Bool(a), Bool(b)) => a == b
    case (Int(a), Int(b)) => a == b
    case (Float(a), Float(b)) => a == b
    case (Str(a), Str(b)) => a == b
    case (Arr(a), Arr(b)) =>
      |a| == |b| && forall i | 0 <= i < |a| :: ValuesEqual(a[i], b[i])
    case (Obj(a), Obj(b)) =>
      a.Keys == b.Keys && forall key | key in a.Keys :: ValuesEqual(a[key], b[key])
    case _ => false
  }

  /** The recursive comparison identifies exactly the structurally equal values. */
  lemma {:induction false} ValuesEqualIsEquality(left: Json, right: Json)
    ensures ValuesEqual(left, right) <==> left == right
    decreases left
  {
    match (left, right)
    case (Arr(a), Arr(b)) =>
      forall i | 0 <= i < |a| && i < |b|
        ensures ValuesEqual(a[i], b[i]) <==> a[i] == b[i]
      {
        ValuesEqualIsEquality(a[i], b[i]);
      }
    case (Obj(a), Obj(b)) =>
      forall key | key in a.Keys && key in b.Keys
        ensures ValuesEqual(a[key], b[key]) <==> a[key] == b[key]
      {
        ValuesEqualIsEquality(a[key], b[key]);
      }
    case _ =>
  }
}
