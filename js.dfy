/**
 * The JavaScript values this library inspects, the `typeof` operator,
 * the string coercion used in error messages, and the errors it throws.
 */
module Js {

  /**
   * A JavaScript value. Functions are identified by an id: what a user
   * function does when called is supplied separately, as a parameter of
   * the operation that calls it. Plain objects and Immutable.js maps are
   * both `Obj`.
   */
  datatype JsValue =
    | Undefined
    | Null
    | Bool(b: bool)
    | Number(n: int)
    | Str(s: string)
    | Func(id: nat)
    | Obj(props: map<string, JsValue>)

  /** A state map (an Immutable.js `Map` from reducer key to sub-state). */
  type State = map<string, JsValue>

  /** The contents of a listener context object. */
  type Slots = map<string, JsValue>

  /** `Immutable.Map()`, the default sub-state. */
  const EmptyMap: JsValue := Obj(map[])

  /** JavaScript's `typeof`. */
  function TypeOf(v: JsValue): string
  {
    match v
    case Undefined => "undefined"
    case Null => "object"
    case Bool(_) => "boolean"
    case Number(_) => "number"
    case Str(_) => "string"
    case Func(_) => "function"
    case Obj(_) => "object"
  }

  /** Decimal digits of a natural number. */
  function NatToString(n: nat): string
    decreases n
  {
    var d := ["0", "1", "2", "3", "4", "5", "6", "7", "8", "9"][n % 10];
    if n < 10 then d else NatToString(n / 10) + d
  }

  /**
   * String coercion (`'' + v`). Exact for the primitive values; a
   * function's source text is not part of the model.
   */
  function Render(v: JsValue): string
  {
    match v
    case Undefined => "undefined"
    case Null => "null"
    case Bool(b) => if b then "true" else "false"
    case Number(n) => if n < 0 then "-" + NatToString(-n) else NatToString(n)
    case Str(s) => s
    case Func(_) => "function"
    case Obj(_) => "[object Object]"
  }

  /**
   * The names under which every plain object `{}` already holds a function,
   * inherited from `Object.prototype`.
   */
  const ObjectPrototypeMethods: set<string> := {
    "constructor", "hasOwnProperty", "isPrototypeOf", "propertyIsEnumerable",
    "toLocaleString", "toString", "valueOf", "__defineGetter__",
    "__defineSetter__", "__lookupGetter__", "__lookupSetter__"
  }

  /**
   * The names under which every plain object `{}` already holds a truthy
   * value: the inherited methods, and `__proto__`, whose getter yields
   * `Object.prototype` itself.
   */
  const InheritedTruthyKeys: set<string> := ObjectPrototypeMethods + {"__proto__"}

  /** The errors the library throws. */
  datatype Error =
    | TypeMismatch(message: string)                     // thrown by checkType
    | DuplicateActionType(actionType: string)
    | ActionSealed(actionType: string)
    | DuplicateReducer(derivedType: string, key: string)
    | NotAFunction(name: string)                        // a TypeError from calling a non-function
}
