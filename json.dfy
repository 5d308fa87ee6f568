/** JavaScript values as they come out of `JSON.parse` and request bodies,
    with the two things the source does with them: truthiness tests
    (`if (x)`, `a || b`) and property access (`obj.key`, `undefined` when
    absent). `JSON.parse` itself is not modelled: callers take it as a
    function parameter that returns `None` where the real one throws. */
module Json {
  import opened Common

  datatype Value =
    | JNull
    | JBool(b: bool)
    | JNum(n: real)
    | JStr(s: string)
    | JArr(items: seq<Value>)
    | JObj(fields: map<string, Value>)

  /** A property read: `None` stands for `undefined`. Reading a property of
      anything but an object gives `undefined` here (for `null` the source
      only ever reads after a truthiness guard). */
  function Get(v: Value, key: string): (r: Option<Value>)
    ensures r.Some? <==> (v.JObj? && key in v.fields)
  {
    if v.JObj? && key in v.fields then Some(v.fields[key]) else None
  }

  /** JavaScript truthiness; `undefined` (None) is falsy. Objects and arrays
      are always truthy, even when empty. */
  predicate Truthy(v: Option<Value>)
  {
    match v
    case None => false
    case Some(JNull) => false
    case Some(JBool(b)) => b
    case Some(JNum(n)) => n != 0.0
    case Some(JStr(s)) => s != ""
    case Some(_) => true
  }

  /** `a || b` on possibly-undefined values. */
  function Or(a: Option<Value>, b: Value): (r: Value)
    ensures Truthy(a) ==> Some(r) == a
    ensures !Truthy(a) ==> r == b
  {
    if Truthy(a) then a.value else b
  }

  /** `v.key === true` */
  predicate IsTrue(v: Value, key: string)
  {
    Get(v, key) == Some(JBool(true))
  }

  /** A parser is a total function that answers `None` for text on which
      `JSON.parse` throws. */
  type Parser = string -> Option<Value>
}
