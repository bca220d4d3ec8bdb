/** The non-primitive type checks: arrays, functions, non-null objects and
    plain objects (prototype `Object.prototype` or `null`). */
module NonPrimitiveTypeUtils {
  import opened JsValues

  /** `Array.isArray`: true for array objects whatever their prototype. */
  predicate IsArray(value: JsValue)
    ensures IsArray(value) <==> value.Object? && value.kind == ArrayObject
  {
    match value
    case Object(kind, _) => kind == ArrayObject
    case _ => false
  }

  predicate IsFunction(value: JsValue)
    ensures IsFunction(value) <==> value.Function?
  {
    TypeOf(value) == "function"
  }

  /** `typeof value === 'object' && value !== null`. */
  predicate IsObject(value: JsValue)
    ensures IsObject(value) <==> value.Object?
  {
    TypeOf(value) == "object" && value != Null
  }

  predicate IsPlainObject(value: JsValue)
    ensures IsPlainObject(value) ==> IsObject(value)
    ensures IsPlainObject(value) <==>
              value.Object? && (value.proto == ObjectPrototype || value.proto == NullPrototype)
  {
    if !IsObject(value) then false
    else
      var proto := value.proto;
      proto == ObjectPrototype || proto == NullPrototype
  }

  /** `typeof null` is `"object"`, yet `null` is not an object here. */
  lemma NullIsNotObject()
    ensures TypeOf(Null) == "object" && !IsObject(Null) && !IsPlainObject(Null)
  {
  }

  /** Functions have their own `typeof` tag, so they are never objects. */
  lemma FunctionIsNotObject(value: JsValue)
    ensures !(IsFunction(value) && IsObject(value))
  {
  }

  /** The documented examples: `{}` and `Object.create(null)` are plain, `[]` is
      an array but not plain, and an object with any other prototype is not plain. */
  lemma PlainObjectExamples(id: nat)
    ensures IsPlainObject(ObjectLiteral) && IsPlainObject(NullPrototypeObject)
    ensures IsArray(ArrayLiteral) && IsObject(ArrayLiteral) && !IsPlainObject(ArrayLiteral)
    ensures !IsPlainObject(Object(Ordinary, OtherPrototype(id)))
  {
  }
}
