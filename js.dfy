/**
 * The runtime values that an untrusted JSON payload can put where the TypeScript
 * types promise a string. Numbers are modelled as integers. An object or an array is one
 * value `Obj` whose contents the model does not look into: only its truthiness matters here.
 */
module Js {

  datatype Value = Str(s: string) | Num(n: int) | Bool(b: bool) | Null | Undefined | Obj

  /** JavaScript truthiness: the empty string, 0, false, null and undefined are falsy; every object is truthy. */
  predicate Truthy(v: Value)
  {
    match v
    case Str(s) => s != ""
    case Num(n) => n != 0
    case Bool(b) => b
    case Null => false
    case Undefined => false
    case Obj => true
  }

  /** The falsy values are exactly the five listed above. */
  lemma FalsyValues(v: Value)
    ensures !Truthy(v) <==> v in {Str(""), Num(0), Bool(false), Null, Undefined}
  {
  }

  /**
   * The property names that every object literal inherits from `Object.prototype`. Looking one
   * of them up on a record that does not define it yields a function (or, for `__proto__`, the
   * prototype object itself), which is truthy.
   */
  const ObjectPrototypeNames: set<string> := {
    "constructor", "hasOwnProperty", "isPrototypeOf", "propertyIsEnumerable",
    "toLocaleString", "toString", "valueOf", "__proto__",
    "__defineGetter__", "__defineSetter__", "__lookupGetter__", "__lookupSetter__"
  }

  /** `s || fallback` for strings: the empty string is the only falsy string. */
  function OrElse(s: string, fallback: string): (r: string)
    ensures r == s || r == fallback
    ensures r == "" ==> s == "" && fallback == ""
    ensures s != "" ==> r == s
  {
    if s != "" then s else fallback
  }
}
