/**
 * Absent values (JavaScript's `undefined`, Python's `None`) and property access
 * on plain JavaScript objects, seen as maps from property names to values.
 */
module Wrappers {

  /** `None` stands for an absent value (`undefined`, `null`, a missing key). */
  datatype Option<+T> = None | Some(value: T) {

    /** Returns the wrapped value, or `default` when absent. */
    function GetOr(default: T): T {
      match this
      case Some(v) => v
      case None => default
    }
  }

  /** Looks `k` up in `m`, as a property access that may yield `undefined`. */
  function Lookup<K, V>(m: map<K, V>, k: K): (r: Option<V>)
    ensures r.Some? <==> k in m
    ensures r.Some? ==> r.value == m[k]
  {
    if k in m then Some(m[k]) else None
  }

  /** The property name whose assignment reaches the setter inherited from `Object.prototype`. */
  const ProtoKey: string := "__proto__"

  /**
   * `o[k] = v` on a plain object, `v` a string. An own property is created or
   * overwritten, except for the name `__proto__`: unless `o` already owns a
   * property of that name, the assignment reaches the inherited `__proto__`
   * setter, which ignores a value that is not an object, and `o` stays as it was.
   */
  function SetProperty<V>(o: map<string, V>, k: string, v: V): (r: map<string, V>)
    ensures k in r <==> k != ProtoKey || k in o
    ensures k in r ==> r[k] == v
    ensures forall j :: j != k ==> (j in r <==> j in o)
    ensures forall j :: j != k && j in r ==> r[j] == o[j]
  {
    if k == ProtoKey && k !in o then o else o[k := v]
  }
}
