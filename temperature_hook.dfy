/** The indoor-temperature hook. Its `refreshInterval` argument and interval ref
    are never used: the hook schedules nothing itself, so the class has no timer. */
module TemperatureHook {
  import opened Js
  import opened Transport
  import opened Metric

  /** The `refreshInterval` default, in milliseconds, which every call site relies on. */
  const DefaultRefreshInterval := 10000.0

  class TemperatureStore {
    var temp: Nullable<real>
    var tempLoading: bool
    var error: string
    const refreshInterval: real
    ghost var calls: seq<Endpoint>

    function State(): MetricState<real>
      reads this
    {
      MetricState(temp, tempLoading, error)
    }

    /** `temp` starts `undefined`, which is not `null`. */
    constructor(refreshInterval: real := DefaultRefreshInterval)
      ensures State() == MetricState(Undefined, false, "") && calls == []
      ensures this.refreshInterval == refreshInterval
    {
      temp := Undefined;
      tempLoading := false;
      error := "";
      this.refreshInterval := refreshInterval;
      calls := [];
    }

    method BeginFetchTemp()
      modifies this
      ensures State() == Started(old(State())) && State().loading
      ensures calls == old(calls) + [GetTemp]
    {
      tempLoading := true;
      calls := calls + [GetTemp];
    }

    method CompleteFetchTemp(result: Outcome<real>)
      modifies this
      ensures State() == Completed(old(State()), result, FailedTemperature)
      ensures calls == old(calls)
    {
      match result {
        case Ok(d) =>
          temp := Value(d);
        case Thrown(e) =>
          error := ErrorMessage(e);
          temp := Null;
        case _ =>
          error := FailedTemperature;
          temp := Null;
      }
      tempLoading := false;
    }

    method FetchTemp(result: Outcome<real>)
      modifies this
      ensures State() == Fetched(old(State()), result, FailedTemperature)
      ensures calls == old(calls) + [GetTemp]
    {
      BeginFetchTemp();
      CompleteFetchTemp(result);
    }
  }
}
