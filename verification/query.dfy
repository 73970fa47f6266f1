/** The query string of a render request, as the route reads it through
    `URLSearchParams.get`, and the `params.get(key) || fallback` idiom every
    widget generator uses to default its optional parameters.
 */
module Query {

  /** A value that may be missing; `None` plays the part of JavaScript's `null`. */
  datatype Option<+T> = None | Some(value: T) {
    function GetOr(default: T): T {
      match this
      case Some(v) => v
      case None => default
    }
  }

  /** The query parameters: each key maps to the first value supplied for it. */
  type Params = map<string, string>

  /** `params.get(key)`: the value of `key`, or `null` when the key is absent. */
  function Get(q: Params, key: string): Option<string> {
    if key in q then Some(q[key]) else None
  }

  /** JavaScript truthiness of a `string | null`: `null` and `""` are falsy. */
  predicate Truthy(v: Option<string>) {
    v.Some? && v.value != ""
  }

  /** `params.get(key) || fallback`: the supplied value, unless it is
      missing or empty, in which case the fallback. */
  function Param(q: Params, key: string, fallback: string): (v: string)
    ensures v == fallback || (key in q && v == q[key])
    ensures fallback != "" ==> v != ""
    ensures key in q && q[key] != "" ==> v == q[key]
    ensures key !in q ==> v == fallback
  {
    var raw := Get(q, key);
    if Truthy(raw) then raw.value else fallback
  }

  /** An empty value is treated exactly like a missing key. */
  lemma ParamEmptyIsMissing(q: Params, key: string, fallback: string)
    requires key in q && q[key] == ""
    ensures Param(q, key, fallback) == Param(q - {key}, key, fallback) == fallback
  {
  }

  /** Parameters under other keys never influence the value read for `key`. */
  lemma ParamIgnoresOtherKeys(q: Params, key: string, other: string, v: string, fallback: string)
    requires other != key
    ensures Param(q[other := v], key, fallback) == Param(q, key, fallback)
  {
  }
}
