/** The operands the assertion helpers receive, as a tagged variant of the
    JavaScript values they can see: numbers are integers, objects and
    functions are identified by an opaque identity. */
module JsValues {

  datatype JsValue =
    | Undefined
    | Null
    | Bool(b: bool)
    | Num(n: int)
    | Str(s: string)
    | Arr(items: seq<JsValue>)
    | Obj(id: nat)
    | Fn(id: nat)

  /** The `typeof` operator. */
  function TypeOf(v: JsValue): (t: string)
    ensures t == "undefined" <==> v.Undefined?
    ensures t == "object" <==> v.Null? || v.Arr? || v.Obj?
    ensures t == "function" <==> v.Fn?
  {
    match v
    case Undefined => "undefined"
    case Null => "object"
    case Bool(_) => "boolean"
    case Num(_) => "number"
    case Str(_) => "string"
    case Arr(_) => "object"
    case Obj(_) => "object"
    case Fn(_) => "function"
  }

  /** `v == undefined` under loose equality: true of undefined and of null. */
  predicate Nullish(v: JsValue) {
    v.Undefined? || v.Null?
  }

  /** JavaScript truthiness: undefined, null, false, 0 and "" are falsy. */
  predicate Truthy(v: JsValue) {
    match v
    case Undefined => false
    case Null => false
    case Bool(b) => b
    case Num(n) => n != 0
    case Str(s) => s != ""
    case Arr(_) => true
    case Obj(_) => true
    case Fn(_) => true
  }

  /** The built-in constructor a value reports as `value.constructor`. */
  datatype Constructor = ArrayCtor | StringCtor | NumberCtor | BooleanCtor | ObjectCtor | FunctionCtor

  /** `value.constructor`; reading it on undefined or null raises, so the
      caller must rule those out. */
  function ConstructorOf(v: JsValue): Constructor
    requires !Nullish(v)
  {
    match v
    case Bool(_) => BooleanCtor
    case Num(_) => NumberCtor
    case Str(_) => StringCtor
    case Arr(_) => ArrayCtor
    case Obj(_) => ObjectCtor
    case Fn(_) => FunctionCtor
  }
}
