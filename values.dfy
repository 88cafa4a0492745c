/** Python values as the collection API receives them: the loosely-typed
    keyword arguments and the dictionaries passed to `create` and `record`. */
module PyValues {

  /** A Python value. Only the shapes the collection API distinguishes are
      kept apart: `None`, the two kinds `isinstance(x, int)` accepts (`bool`
      is a subclass of `int`), strings, `datetime` instants, lists and
      dictionaries; any other object is known only by its type's name. A
      dictionary is keyed by field name. */
  datatype Value =
    | VNone
    | VBool(b: bool)
    | VInt(i: int)
    | VStr(s: string)
    | VDateTime(ticks: int)
    | VList(items: seq<Value>)
    | VMap(fields: map<string, Value>)
    | VObject(typeName: string)

  /** A dictionary of attribute-value pairs. */
  type Dict = map<string, Value>

  /** Python's `isinstance(v, int)`: true of integers and of booleans. */
  predicate IsInstanceInt(v: Value) {
    v.VInt? || v.VBool?
  }

  /** Python's `isinstance(v, dict)`. */
  predicate IsInstanceDict(v: Value) {
    v.VMap?
  }

  /** The value bound to `key` when the dictionary has that key, and
      `default` otherwise: how every optional field is read. */
  function GetOr(d: Dict, key: string, default: Value): (r: Value)
    ensures key in d ==> r == d[key]
    ensures key !in d ==> r == default
  {
    if key in d then d[key] else default
  }

  /** The empty dictionary `dict()`. */
  const EmptyDict: Value := VMap(map[])
}
