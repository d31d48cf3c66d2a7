/**
 * The dynamically typed PHP values that reach the queue's public methods and
 * its configuration properties, with the two PHP predicates the queue relies
 * on: the type tests `is_string`/`is_int` (constructor tests here) and `empty()`.
 */
module PhpValues {

  /** An array key: PHP arrays are keyed by integers or strings. */
  datatype Key = IntKey(i: int) | StrKey(s: string)

  /** One key/value pair of a PHP array, in insertion order. */
  datatype Entry = Entry(key: Key, val: PhpValue)

  datatype PhpValue =
    | PNull
    | PBool(b: bool)
    | PInt(i: int)
    | PFloat(f: real)
    | PString(s: string)
    | PArray(entries: seq<Entry>)
    | PObject
    | PClosure

  /**
   * PHP's `empty()`: true for null, false, 0, 0.0, "", "0" and the empty array;
   * objects and closures are never empty.
   */
  predicate PhpEmpty(v: PhpValue) {
    match v
    case PNull => true
    case PBool(b) => !b
    case PInt(i) => i == 0
    case PFloat(f) => f == 0.0
    case PString(s) => s == "" || s == "0"
    case PArray(e) => |e| == 0
    case PObject => false
    case PClosure => false
  }
}
