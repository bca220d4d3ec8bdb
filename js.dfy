/** The few pieces of JavaScript semantics the dashboard's logic depends on:
    `null`/`undefined`, truthiness of numbers, thrown values and how a template
    literal `${err}` renders them, and `indexOf` on strings. */
module Js {

  datatype Option<T> = None | Some(value: T)

  datatype Result<T> = Success(value: T) | Failure(message: string)

  /** A JavaScript cell that holds a `T`, `null` or `undefined`. A field typed
      `T | null` in the source simply never holds `Undefined`. */
  datatype Nullable<T> = Undefined | Null | Value(value: T) {

    /** The nullish-coalescing operator `this ?? fallback`. */
    function Or(fallback: T): (r: T)
      ensures Value? ==> r == value
      ensures !Value? ==> r == fallback
    {
      match this
      case Value(v) => v
      case _ => fallback
    }
  }

  /** Truthiness of a `number | null | undefined`: `0`, `null` and `undefined`
      are falsy (NaN is not modelled). */
  predicate TruthyNumber(x: Nullable<real>) {
    x.Value? && x.value != 0.0
  }

  /** A value bound by a `catch` clause: an `Error` instance or any other value. */
  datatype Exception =
    | ErrorObject(name: string, message: string)
    | NonErrorValue(text: string)

  /** `${err}`: `String(err)`, which for an `Error` is `Error.prototype.toString`
      ("name: message", or just the non-empty one of the two). */
  function ToText(e: Exception): (r: string)
    ensures e.NonErrorValue? ==> r == e.text
    ensures e.ErrorObject? ==> (r == "" <==> e.name == "" && e.message == "")
    ensures e.ErrorObject? ==> e.name <= r
    ensures e.ErrorObject? ==> |e.message| <= |r| && r[|r| - |e.message|..] == e.message
  {
    match e
    case ErrorObject(name, message) =>
      if name == "" then message
      else if message == "" then name
      else name + ": " + message
    case NonErrorValue(text) => text
  }

  /** The hooks' `Error: ${err}` message. */
  function ErrorMessage(e: Exception): (r: string)
    ensures |r| > 0
  {
    "Error: " + ToText(e)
  }

  /** The TypeError thrown when `toFixed` is called on a nullish value
      (the wording is the one the Hermes engine uses). The message names the
      value: it ends in "null" for `null` and in "undefined" for `undefined`. */
  function ToFixedOnNullish(v: Nullable<real>): (r: Exception)
    requires !v.Value?
    ensures r.ErrorObject? && r.name == "TypeError"
    ensures |r.message| >= 4 && (r.message[|r.message| - 4..] == "null" <==> v.Null?)
    ensures v.Undefined? ==> |r.message| >= 9 && r.message[|r.message| - 9..] == "undefined"
  {
    var named := if v.Null? then "null" else "undefined";
    var message := "Cannot read property 'toFixed' of " + named;
    assert message[|message| - |named|..] == named;
    assert message[|message| - 4..] == named[|named| - 4..];
    ErrorObject("TypeError", message)
  }

  /** `s.indexOf(c)`, with `|s|` standing for "not found" (-1). */
  function FirstIndexOf(s: string, c: char): (r: nat)
    ensures r <= |s|
    ensures c !in s[..r]
    ensures r < |s| ==> s[r] == c
    ensures r == |s| <==> c !in s
  {
    if s == [] then 0
    else if s[0] == c then 0
    else
      assert s[0] != c;
      1 + FirstIndexOf(s[1..], c)
  }

  /** The index of a separator is the length of a separator-free prefix. */
  lemma {:induction false} FirstIndexOfAfterPrefix(a: string, c: char, b: string)
    requires c !in a
    ensures FirstIndexOf(a + [c] + b, c) == |a|
  {
    if a != [] {
      assert (a + [c] + b)[1..] == a[1..] + [c] + b;
      FirstIndexOfAfterPrefix(a[1..], c, b);
    }
  }
}
