/**
 * The parsed JSON documents the game-data API returns (what `res.json()`
 * produces): objects, arrays and scalars, nested to any depth.
 */
module Json {

  /** A JSON scalar. Numbers are whole numbers in this model. */
  datatype Scalar = Null | Bool(b: bool) | Number(n: int) | Str(s: string)

  /** A JSON value; an object is a mapping from member name to value. */
  datatype Json =
    | Leaf(scalar: Scalar)
    | Arr(elems: seq<Json>)
    | Obj(members: map<string, Json>)
}
