/** Value-level pieces of the temperature setpoint: the functional updater the
    hooks pass to `setTempSetpoint`, and the text a POST carries. */
module Setpoint {
  import opened Js

  /** The updater `x => x !== null && x !== undefined ? x + delta : null`. */
  function Shifted(x: Nullable<real>, delta: real): (r: Nullable<real>)
    ensures r.Value? <==> x.Value?
    ensures !x.Value? ==> r == Null
    ensures r.Value? ==> r.value - x.value == delta
  {
    if !x.Null? && !x.Undefined? then Value(x.value + delta) else Null
  }

  /** Shifting back by the same step restores any setpoint that is not `undefined`. */
  lemma ShiftRoundTrip(x: Nullable<real>, delta: real)
    requires !x.Undefined?
    ensures Shifted(Shifted(x, delta), -delta) == x
  {
  }

  /** The string a setpoint POST sends: the literal `'0'`, or `x.toFixed(1)`,
      kept symbolic because rounding to text is not modelled. */
  datatype SetpointPayload = ZeroText | Fixed1(x: real)
}
