/** The read-only variant of the setpoint hook: it fetches the setpoint, and its
    increment and decrement move the local value by half a degree without any
    transport call. */
module LocalTempSetpointHook {
  import opened Js
  import opened Transport
  import opened Metric
  import opened Setpoint

  const Step := 0.5

  class LocalTempSetpointStore {
    var tempSetpoint: Nullable<real>
    var spLoading: bool
    var error: string
    ghost var calls: seq<Endpoint>

    function State(): MetricState<real>
      reads this
    {
      MetricState(tempSetpoint, spLoading, error)
    }

    /** The setpoint starts at 0, not `null`. */
    constructor()
      ensures State() == MetricState(Value(0.0), false, "") && calls == []
    {
      tempSetpoint := Value(0.0);
      spLoading := false;
      error := "";
      calls := [];
    }

    method BeginFetchTempSp()
      modifies this
      ensures State() == Started(old(State())) && State().loading
      ensures calls == old(calls) + [GetTempSetpoint]
    {
      spLoading := true;
      calls := calls + [GetTempSetpoint];
    }

    method CompleteFetchTempSp(result: Outcome<real>)
      modifies this
      ensures State() == Completed(old(State()), result, FailedTemperature)
      ensures calls == old(calls)
    {
      match result {
        case Ok(d) =>
          tempSetpoint := Value(d);
        case Thrown(e) =>
          error := ErrorMessage(e);
          tempSetpoint := Null;
        case _ =>
          error := FailedTemperature;
          tempSetpoint := Null;
      }
      spLoading := false;
    }

    method FetchTempSp(result: Outcome<real>)
      modifies this
      ensures State() == Fetched(old(State()), result, FailedTemperature)
      ensures calls == old(calls) + [GetTempSetpoint]
    {
      BeginFetchTempSp();
      CompleteFetchTempSp(result);
    }

    method IncrementTempSp()
      modifies this
      ensures tempSetpoint == Shifted(old(tempSetpoint), Step)
      ensures spLoading == old(spLoading) && error == old(error) && calls == old(calls)
    {
      tempSetpoint := Shifted(tempSetpoint, Step);
    }

    method DecrementTempSp()
      modifies this
      ensures tempSetpoint == Shifted(old(tempSetpoint), -Step)
      ensures spLoading == old(spLoading) && error == old(error) && calls == old(calls)
    {
      tempSetpoint := Shifted(tempSetpoint, -Step);
    }
  }

  /** An increment followed by a decrement leaves the store as it was
      (the setpoint of this hook is never `undefined`). */
  method IncrementThenDecrement(store: LocalTempSetpointStore)
    requires !store.tempSetpoint.Undefined?
    modifies store
    ensures store.State() == old(store.State()) && store.calls == old(store.calls)
  {
    store.IncrementTempSp();
    store.DecrementTempSp();
    ShiftRoundTrip(old(store.tempSetpoint), Step);
  }
}
