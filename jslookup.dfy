/**
 * Property lookup `obj[key]` on a JavaScript object literal, as the two
 * tables in lib/ai-service.ts are read. Besides the literal's own keys, such
 * a lookup also finds the members every object inherits from
 * `Object.prototype`; all of those are functions or objects, and so truthy.
 */
module JsLookup {

  /** The names an object literal inherits from `Object.prototype`. */
  const ObjectPrototypeMembers: set<string> := {
    "constructor", "hasOwnProperty", "isPrototypeOf", "propertyIsEnumerable",
    "toLocaleString", "toString", "valueOf", "__proto__",
    "__defineGetter__", "__defineSetter__", "__lookupGetter__", "__lookupSetter__"
  }

  /** What `obj[key]` evaluates to. */
  datatype Lookup<T> =
    | OwnValue(value: T)          // one of the literal's own properties
    | InheritedMember(name: string) // a function or object from Object.prototype
    | Undefined                   // nothing under that key

  /** `obj[key]` where the literal's own properties are `own`. */
  function Get<T>(own: map<string, T>, key: string): (l: Lookup<T>)
    ensures key in own ==> l == OwnValue(own[key])
    ensures key !in own && key in ObjectPrototypeMembers ==> l == InheritedMember(key)
    ensures key !in own && key !in ObjectPrototypeMembers ==> l == Undefined
  {
    if key in own then OwnValue(own[key])
    else if key in ObjectPrototypeMembers then InheritedMember(key)
    else Undefined
  }
}
