/** The primitive type checks: strict equality with the two booleans, `null`
    or `undefined`, and `typeof` tests for numbers, strings and symbols. */
module PrimitiveTypeUtils {
  import opened JsValues

  /** `value === true || value === false`. */
  predicate IsBoolean(value: JsValue)
    ensures IsBoolean(value) <==> value.Boolean?
  {
    value == Boolean(true) || value == Boolean(false)
  }

  predicate IsNumber(value: JsValue)
    ensures IsNumber(value) <==> value.Number?
  {
    TypeOf(value) == "number"
  }

  predicate IsNull(value: JsValue)
    ensures IsNull(value) ==> TypeOf(value) == "object"
  {
    value == Null
  }

  predicate IsString(value: JsValue)
    ensures IsString(value) <==> value.String?
  {
    TypeOf(value) == "string"
  }

  predicate IsSymbol(value: JsValue)
    ensures IsSymbol(value) <==> value.Symbol?
  {
    TypeOf(value) == "symbol"
  }

  predicate IsUndefined(value: JsValue)
    ensures IsUndefined(value) <==> TypeOf(value) == "undefined"
  {
    value == Undefined
  }

  /** The `typeof` checks cannot tell apart two values with the same tag. */
  lemma TypeOfChecksDependOnTagOnly(a: JsValue, b: JsValue)
    requires TypeOf(a) == TypeOf(b)
    ensures IsNumber(a) == IsNumber(b) && IsString(a) == IsString(b) && IsSymbol(a) == IsSymbol(b)
  {
  }

  /** `null` and `undefined` are different values. */
  lemma NullIsNotUndefined(value: JsValue)
    ensures !(IsNull(value) && IsUndefined(value))
    ensures IsNull(value) <==> value.Null?
  {
  }

  /** How many of `flags` are true. */
  function Count(flags: seq<bool>): (r: nat)
    ensures r <= |flags|
  {
    if flags == [] then 0 else Ones(flags[0]) + Count(flags[1..])
  }

  function Checks(value: JsValue): seq<bool> {
    [IsBoolean(value), IsNumber(value), IsNull(value), IsString(value), IsSymbol(value), IsUndefined(value)]
  }

  function Ones(b: bool): nat {
    if b then 1 else 0
  }

  lemma {:induction false} CountOfSix(a: bool, b: bool, c: bool, d: bool, e: bool, f: bool)
    ensures Count([a, b, c, d, e, f]) == Ones(a) + Ones(b) + Ones(c) + Ones(d) + Ones(e) + Ones(f)
  {
    assert Count([f]) == Ones(f) by { assert [f][1..] == []; }
    assert Count([e, f]) == Ones(e) + Ones(f) by { assert [e, f][1..] == [f]; }
    assert Count([d, e, f]) == Ones(d) + Ones(e) + Ones(f) by { assert [d, e, f][1..] == [e, f]; }
    assert Count([c, d, e, f]) == Ones(c) + Ones(d) + Ones(e) + Ones(f) by { assert [c, d, e, f][1..] == [d, e, f]; }
    assert Count([b, c, d, e, f]) == Ones(b) + Ones(c) + Ones(d) + Ones(e) + Ones(f) by {
      assert [b, c, d, e, f][1..] == [c, d, e, f];
    }
    assert [a, b, c, d, e, f][1..] == [b, c, d, e, f];
  }

  /** The six checks are exclusive: a value passes at most one, and a bigint,
      a function or an object passes none. */
  lemma AtMostOneCheckHolds(value: JsValue)
    ensures Count(Checks(value)) <= 1
    ensures value.BigInt? || value.Function? || value.Object? ==> Count(Checks(value)) == 0
  {
    CountOfSix(IsBoolean(value), IsNumber(value), IsNull(value), IsString(value), IsSymbol(value), IsUndefined(value));
  }
}
