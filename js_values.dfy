/** The slice of JavaScript's value semantics that the two request handlers
    depend on: the kinds of value a parsed JSON body (or a loaded store) can
    hold, JavaScript truthiness, the `typeof` operator, and the members every
    plain object inherits from `Object.prototype`. */
module JsValues {

  /** A JavaScript value as it can arrive in a parsed request body or store.
      Numbers are reals. JSON cannot produce NaN, but the JSON text `-0`
      parses to the number -0 and `1e400` to an infinity; the model folds `-0` into `Num(0.0)`,
      which is falsy like it, and leaves infinities out, which are truthy like
      every non-zero real.
      `Inherited(name)` is what reading `name` off a plain object yields when
      the object has no own property of that name but `Object.prototype` has
      one: a built-in method, or the prototype object itself for `__proto__`. */
  datatype JsValue =
    | Undefined
    | Null
    | Bool(b: bool)
    | Num(n: real)
    | Str(s: string)
    | Arr(items: seq<JsValue>)
    | Obj(fields: map<string, JsValue>)
    | Inherited(name: string)

  /** JavaScript truthiness: `undefined`, `null`, `false`, `0` and `""` are
      falsy, everything else (every object, array and function) is truthy. */
  predicate Truthy(v: JsValue)
    ensures !Truthy(v) <==> v in {Undefined, Null, Bool(false), Num(0.0), Str("")}
  {
    match v
    case Undefined => false
    case Null => false
    case Bool(b) => b
    case Num(n) => n != 0.0
    case Str(s) => s != ""
    case Arr(_) => true
    case Obj(_) => true
    case Inherited(_) => true
  }

  /** The string the `typeof` operator yields. */
  function TypeOf(v: JsValue): (t: string)
    ensures t == "string" <==> v.Str?
    ensures t == "undefined" <==> v.Undefined?
  {
    match v
    case Undefined => "undefined"
    case Null => "object"
    case Bool(_) => "boolean"
    case Num(_) => "number"
    case Str(_) => "string"
    case Arr(_) => "object"
    case Obj(_) => "object"
    case Inherited(name) => if name == "__proto__" then "object" else "function"
  }

  /** The property names every plain object inherits from `Object.prototype`
      in Node.js. */
  const ObjectPrototypeMembers: set<string> :=
    {"constructor", "hasOwnProperty", "isPrototypeOf", "propertyIsEnumerable",
     "toLocaleString", "toString", "valueOf", "__defineGetter__",
     "__defineSetter__", "__lookupGetter__", "__lookupSetter__", "__proto__"}
}
