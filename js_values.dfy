/** JavaScript values as the type checks see them: the primitive kinds, and
    objects with whether they are arrays and what their prototype is. */
module JsValues {

  /** Where an object's prototype chain starts. */
  datatype Prototype = ObjectPrototype | ArrayPrototype | NullPrototype | OtherPrototype(id: nat)

  /** Arrays are exotic objects; their prototype can still be replaced. */
  datatype ObjectKind = Ordinary | ArrayObject

  /** A JavaScript value. Numbers are reals (NaN and the infinities are not
      modelled); symbols and functions are told apart by an identity. */
  datatype JsValue =
    | Undefined
    | Null
    | Boolean(b: bool)
    | Number(x: real)
    | BigInt(n: int)
    | String(s: string)
    | Symbol(symbolId: nat)
    | Function(functionId: nat)
    | Object(kind: ObjectKind, proto: Prototype)

  /** The `typeof` operator, including its `"object"` answer for `null`. */
  function TypeOf(v: JsValue): (r: string)
    ensures r == "object" <==> v.Null? || v.Object?
    ensures r == "function" <==> v.Function?
  {
    match v
    case Undefined => "undefined"
    case Null => "object"
    case Boolean(_) => "boolean"
    case Number(_) => "number"
    case BigInt(_) => "bigint"
    case String(_) => "string"
    case Symbol(_) => "symbol"
    case Function(_) => "function"
    case Object(_, _) => "object"
  }

  /** `[]`, an array literal. */
  const ArrayLiteral := Object(ArrayObject, ArrayPrototype)

  /** `{}`, an object literal. */
  const ObjectLiteral := Object(Ordinary, ObjectPrototype)

  /** `Object.create(null)`. */
  const NullPrototypeObject := Object(Ordinary, NullPrototype)
}
