/** What a plain JavaScript object answers for a key it does not own. */
module JsObject {
  /** The names every plain JavaScript object inherits from
      `Object.prototype`: looking one of them up on an object that does not
      own it finds the inherited member, which is truthy. */
  const PrototypeNames: set<string> := {
    "constructor", "__proto__", "hasOwnProperty", "isPrototypeOf",
    "propertyIsEnumerable", "toString", "toLocaleString", "valueOf",
    "__defineGetter__", "__defineSetter__", "__lookupGetter__", "__lookupSetter__"}
}
