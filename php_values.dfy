/**
 * The PHP values the plugin reads: the submitted settings form, the stored
 * option record, and the three PHP operations the plugin applies to them
 * (`isset`, the `(bool)` cast and the `(array)` cast).
 */
module PhpValues {

  datatype Option<+T> = None | Some(value: T)

  /**
   * A PHP value. An array keeps its values in iteration order; the keys of
   * a nested array are not kept, because the plugin only iterates over such
   * arrays (`foreach`) and searches them (`in_array`).
   */
  datatype Value =
    | VNull
    | VBool(b: bool)
    | VInt(i: int)
    | VStr(s: string)
    | VArray(elems: seq<Value>)

  /** A PHP array with string keys: a submitted form or a stored option record. */
  type PhpArray = map<string, Value>

  /** PHP's `(bool)` cast: null, false, 0, "", "0" and the empty array are false. */
  predicate Truthy(v: Value) {
    match v
    case VNull => false
    case VBool(b) => b
    case VInt(i) => i != 0
    case VStr(s) => s != "" && s != "0"
    case VArray(a) => |a| > 0
  }

  /** `isset($a[$key])`: the value when the key is present and not null. */
  function Isset(a: PhpArray, key: string): Option<Value> {
    if key in a && a[key] != VNull then Some(a[key]) else None
  }

  /**
   * `isset($x) && (bool) $x`, which is also `! empty($x)`.
   */
  predicate SetAndTruthy(x: Option<Value>) {
    x.Some? && Truthy(x.value)
  }

  /** `isset($x) ? (array) $x : array()`: a scalar becomes a one-element array. */
  function ArrayCast(x: Option<Value>): seq<Value> {
    match x
    case None => []
    case Some(VNull) => []
    case Some(VArray(a)) => a
    case Some(v) => [v]
  }
}
