/**
 * The part of a decoded JSON request object that the light server looks at.
 * Values keep their dynamic type because the server tests them with Python's
 * truthiness and `is not None`, not with a schema.
 */
module Json {

  import opened Wire

  datatype JValue =
    | JNull
    | JBool(b: bool)
    | JInt(i: int)
    | JStr(s: string)
    | JList(items: seq<string>)

  /** A decoded JSON object: `json.loads` of a request payload. */
  type Object = map<string, JValue>

  /** Python's `bool(v)`. */
  predicate Truthy(v: JValue)
  {
    match v
    case JNull => false
    case JBool(b) => b
    case JInt(i) => i != 0
    case JStr(s) => s != []
    case JList(items) => items != []
  }

  /**
   * The list Python sees when it takes `len(v)` or slices `v` into
   * another list: a list is itself, a string is its characters; any other
   * value makes `len` raise TypeError (None here).
   */
  function AsTokens(v: JValue): (r: Option<seq<string>>)
    ensures r.Some? <==> v.JList? || v.JStr?
    ensures v.JList? ==> r == Some(v.items)
    ensures v.JStr? ==> |r.value| == |v.s| && forall k :: 0 <= k < |v.s| ==> r.value[k] == [v.s[k]]
    ensures r.Some? ==> (Truthy(v) <==> r.value != [])
  {
    match v
    case JList(items) => Some(items)
    case JStr(s) => Some(seq(|s|, k requires 0 <= k < |s| => [s[k]]))
    case _ => None
  }
}
