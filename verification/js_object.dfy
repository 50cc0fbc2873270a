/** Property lookup `obj[name]` on a JavaScript object literal: the literal's own
    keys first, then the members every object inherits from `Object.prototype`. */
module JsObject {

  /** The names `Object.prototype` provides; each is a function or an object, so
      truthy. */
  const PrototypeMembers: set<string> := {
    "constructor", "__defineGetter__", "__defineSetter__", "hasOwnProperty",
    "__lookupGetter__", "__lookupSetter__", "isPrototypeOf", "propertyIsEnumerable",
    "toString", "valueOf", "__proto__", "toLocaleString"
  }

  datatype Property<V> = Own(value: V) | Inherited(name: string) | Missing

  /** `obj[name]` where `obj` is a literal with the own entries `own`. */
  function Get<V>(own: map<string, V>, name: string): (p: Property<V>)
    ensures p.Own? <==> name in own
    ensures p.Own? ==> p.value == own[name]
    ensures p.Missing? <==> name !in own && name !in PrototypeMembers
    ensures p.Inherited? ==> p.name == name
  {
    if name in own then Own(own[name])
    else if name in PrototypeMembers then Inherited(name)
    else Missing
  }

  /** `obj[name] || fallback` as written: an inherited member is truthy and is
      returned instead of the fallback. */
  function GetOrAsWritten<V>(own: map<string, V>, name: string, fallback: V): (p: Property<V>)
    ensures name in own ==> p == Own(own[name])
    ensures name !in own && name in PrototypeMembers ==> p == Inherited(name)
    ensures name !in own && name !in PrototypeMembers ==> p == Own(fallback)
  {
    match Get(own, name)
    case Missing => Own(fallback)
    case p => p
  }

  /** The same lookup restricted to own entries, which is what a table with a
      default entry is meant to do. */
  function GetOwnOr<V>(own: map<string, V>, name: string, fallback: V): (v: V)
    ensures name in own ==> v == own[name]
    ensures name !in own ==> v == fallback
  {
    if name in own then own[name] else fallback
  }

  /** The two lookups differ exactly on the inherited names. */
  lemma AsWrittenDiffersOnInherited<V>(own: map<string, V>, name: string, fallback: V)
    ensures GetOrAsWritten(own, name, fallback) == Own(GetOwnOr(own, name, fallback))
        <==> name in own || name !in PrototypeMembers
  {
  }
}
