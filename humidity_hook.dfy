/** The humidity hook: the transport returns text, which `parseFloat` turns into
    the stored number. `parseFloat` is a library function and is supplied to the
    store rather than defined here. */
module HumidityHook {
  import opened Js
  import opened Transport
  import opened Metric

  class HumidityStore {
    var humidity: Nullable<real>
    var humidityLoading: bool
    var error: string
    const parseFloat: string -> real
    ghost var calls: seq<Endpoint>

    function State(): MetricState<real>
      reads this
    {
      MetricState(humidity, humidityLoading, error)
    }

    constructor(parseFloat: string -> real)
      ensures State() == MetricState(Undefined, false, "") && calls == []
      ensures this.parseFloat == parseFloat
    {
      humidity := Undefined;
      humidityLoading := false;
      error := "";
      this.parseFloat := parseFloat;
      calls := [];
    }

    method BeginFetchHumidity()
      modifies this
      ensures State() == Started(old(State())) && State().loading
      ensures calls == old(calls) + [GetHumidity]
    {
      humidityLoading := true;
      calls := calls + [GetHumidity];
    }

    /** An `ok` reply stores `parseFloat(data)`; a non-ok reply records the
        temperature message (sic) and nulls the value. */
    method CompleteFetchHumidity(result: Outcome<string>)
      modifies this
      ensures State() == Completed(old(State()), MapOk(result, parseFloat), FailedTemperature)
      ensures calls == old(calls)
    {
      match result {
        case Ok(d) =>
          var convertedToNum := parseFloat(d);
          humidity := Value(convertedToNum);
        case Thrown(e) =>
          error := ErrorMessage(e);
          humidity := Null;
        case _ =>
          error := FailedTemperature;
          humidity := Null;
      }
      humidityLoading := false;
    }

    method FetchHumidity(result: Outcome<string>)
      modifies this
      ensures State() == Fetched(old(State()), MapOk(result, parseFloat), FailedTemperature)
      ensures calls == old(calls) + [GetHumidity]
    {
      BeginFetchHumidity();
      CompleteFetchHumidity(result);
    }
  }
}
