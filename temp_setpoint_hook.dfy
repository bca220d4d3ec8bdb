/** The writable temperature-setpoint hook: fetch the setpoint, and POST an
    increment or decrement, changing the local value only after an `ok` reply. */
module TempSetpointHook {
  import opened Js
  import opened Transport
  import opened Metric
  import opened Setpoint

  /** What `incrementTempSp` POSTs: `newSetpoint = tempSetpoint && tempSetpoint + increment`,
      then `newSetpoint ? newSetpoint.toFixed(1) : '0'`. */
  function IncrementPayload(tempSetpoint: Nullable<real>, increment: real): (r: SetpointPayload)
    ensures r == ZeroText <==>
              !tempSetpoint.Value? || tempSetpoint.value == 0.0 || tempSetpoint.value + increment == 0.0
    ensures r.Fixed1? ==> r.x == tempSetpoint.value + increment
  {
    var newSetpoint := if TruthyNumber(tempSetpoint) then Value(tempSetpoint.value + increment) else tempSetpoint;
    if TruthyNumber(newSetpoint) then Fixed1(newSetpoint.value) else ZeroText
  }

  /** What `decrementTempSp` POSTs: `(tempSetpoint && tempSetpoint + decrement)!.toFixed(1)`.
      `None` stands for the TypeError thrown on a nullish setpoint, before any POST. */
  function DecrementPayload(tempSetpoint: Nullable<real>, decrement: real): (r: Option<SetpointPayload>)
    ensures r.None? <==> !tempSetpoint.Value?
    ensures tempSetpoint.Value? && tempSetpoint.value != 0.0 ==> r == Some(Fixed1(tempSetpoint.value + decrement))
    ensures tempSetpoint == Value(0.0) ==> r == Some(Fixed1(0.0))
  {
    var newSetpoint := if TruthyNumber(tempSetpoint) then Value(tempSetpoint.value + decrement) else tempSetpoint;
    if newSetpoint.Value? then Some(Fixed1(newSetpoint.value)) else None
  }

  /** The decrement sends the sum but, on `ok`, stores the difference: the two
      differ by twice the step for every non-zero setpoint. */
  lemma DecrementSentDiffersFromStored(x: real, decrement: real)
    requires x != 0.0
    ensures DecrementPayload(Value(x), decrement).Some?
    ensures DecrementPayload(Value(x), decrement).value.x - Shifted(Value(x), -decrement).value == 2.0 * decrement
  {
  }

  class TempSetpointStore {
    var tempSetpoint: Nullable<real>
    var spLoading: bool
    var error: string
    /** Transport calls issued, oldest first. */
    ghost var calls: seq<Endpoint>

    function State(): MetricState<real>
      reads this
    {
      MetricState(tempSetpoint, spLoading, error)
    }

    constructor()
      ensures State() == MetricState(Value(0.0), false, "") && calls == []
    {
      tempSetpoint := Value(0.0);
      spLoading := false;
      error := "";
      calls := [];
    }

    /** `fetchTempSp` up to its await: the loading flag is raised, the GET is issued. */
    method BeginFetchTempSp()
      modifies this
      ensures State() == Started(old(State())) && State().loading
      ensures calls == old(calls) + [GetTempSetpoint]
    {
      spLoading := true;
      calls := calls + [GetTempSetpoint];
    }

    /** `fetchTempSp` after its await. */
    method CompleteFetchTempSp(result: Outcome<real>)
      modifies this
      ensures State() == Completed(old(State()), result, FailedTemperature)
      ensures calls == old(calls)
    {
      match result {
        case Ok(d) =>
          tempSetpoint := Value(d);
        case Thrown(e) =>
          error := ErrorMessage(e);
          tempSetpoint := Null;
        case _ =>
          error := FailedTemperature;
          tempSetpoint := Null;
      }
      spLoading := false;
    }

    method FetchTempSp(result: Outcome<real>)
      modifies this
      ensures State() == Fetched(old(State()), result, FailedTemperature)
      ensures calls == old(calls) + [GetTempSetpoint]
    {
      BeginFetchTempSp();
      CompleteFetchTempSp(result);
    }

    /** Post-then-apply: the local setpoint moves only after an `ok` reply;
        a thrown POST records its error, a non-ok reply records nothing. */
    method IncrementTempSp(increment: real, result: Outcome<()>) returns (sent: SetpointPayload)
      modifies this
      ensures sent == IncrementPayload(old(tempSetpoint), increment)
      ensures calls == old(calls) + [PostTempSetpoint]
      ensures tempSetpoint == if result.Ok? then Shifted(old(tempSetpoint), increment) else old(tempSetpoint)
      ensures error == if result.Thrown? then ErrorMessage(result.exception) else old(error)
      ensures spLoading == old(spLoading)
    {
      var newSetpoint := if TruthyNumber(tempSetpoint) then Value(tempSetpoint.value + increment) else tempSetpoint;
      sent := if TruthyNumber(newSetpoint) then Fixed1(newSetpoint.value) else ZeroText;
      calls := calls + [PostTempSetpoint];
      match result {
        case Ok(_) =>
          tempSetpoint := Shifted(tempSetpoint, increment);
        case Thrown(e) =>
          error := ErrorMessage(e);
        case _ =>
      }
    }

    /** As written: POSTs the sum, stores the difference on `ok`, and on a
        nullish setpoint throws before posting (`sent` is `None`). */
    method DecrementTempSp(decrement: real, result: Outcome<()>) returns (sent: Option<SetpointPayload>)
      modifies this
      ensures sent == DecrementPayload(old(tempSetpoint), decrement)
      ensures calls == old(calls) + (if sent.Some? then [PostTempSetpoint] else [])
      ensures tempSetpoint == if sent.Some? && result.Ok? then Shifted(old(tempSetpoint), -decrement) else old(tempSetpoint)
      ensures error ==
                if sent.None? then ErrorMessage(ToFixedOnNullish(old(tempSetpoint)))
                else if result.Thrown? then ErrorMessage(result.exception)
                else old(error)
      ensures spLoading == old(spLoading)
    {
      var newSetpoint := if TruthyNumber(tempSetpoint) then Value(tempSetpoint.value + decrement) else tempSetpoint;
      if !newSetpoint.Value? {
        error := ErrorMessage(ToFixedOnNullish(newSetpoint));
        sent := None;
        return;
      }
      sent := Some(Fixed1(newSetpoint.value));
      calls := calls + [PostTempSetpoint];
      match result {
        case Ok(_) =>
          tempSetpoint := Shifted(tempSetpoint, -decrement);
        case Thrown(e) =>
          error := ErrorMessage(e);
        case _ =>
      }
    }
  }
}
