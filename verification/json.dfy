/**
 * A JSON value as the dashboard sees it after `JSON.parse` or after axios has
 * decoded a response body. Numbers are kept integral: no floating point.
 */
module Json {
  import opened Wrappers

  datatype Json =
    | Null
    | Bool(b: bool)
    | Num(n: int)
    | Str(s: string)
    | Arr(items: seq<Json>)
    | Obj(fields: seq<(string, Json)>)

  /** JavaScript truthiness of a decoded value: `null`, `false`, `0` and `""` are falsy. */
  predicate Truthy(j: Json) {
    match j
    case Null => false
    case Bool(b) => b
    case Num(n) => n != 0
    case Str(s) => s != ""
    case Arr(_) => true
    case Obj(_) => true
  }

  /** The value under `name` in a field list; the last duplicate wins, as in `JSON.parse`. */
  function FieldIn(fields: seq<(string, Json)>, name: string): (r: Option<Json>)
    ensures r.Some? <==> exists i :: 0 <= i < |fields| && fields[i].0 == name
  {
    if fields == [] then None
    else if fields[|fields| - 1].0 == name then Some(fields[|fields| - 1].1)
    else
      var r := FieldIn(fields[..|fields| - 1], name);
      assert forall i :: 0 <= i < |fields| - 1 ==> fields[..|fields| - 1][i] == fields[i];
      r
  }

  /** Optional chaining `j?.name`: `undefined` unless `j` is an object holding `name`. */
  function Field(j: Json, name: string): (r: Option<Json>)
    ensures !j.Obj? ==> r.None?
  {
    match j
    case Obj(fields) => FieldIn(fields, name)
    case _ => None
  }
}
