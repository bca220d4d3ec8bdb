/** The HVAC occupancy-mode hook: fetch the current mode code, and POST a new one,
    which is applied locally only after an `ok` reply. */
module OccupancyHook {
  import opened Js
  import opened Transport
  import opened Metric

  class OccupancyStore {
    var occupancy: Nullable<string>
    var error: string
    var spLoading: bool
    ghost var calls: seq<Endpoint>

    function State(): MetricState<string>
      reads this
    {
      MetricState(occupancy, spLoading, error)
    }

    /** The mode starts as the code `'0'`, which is none of the four modes. */
    constructor()
      ensures State() == MetricState(Value("0"), false, "") && calls == []
    {
      occupancy := Value("0");
      error := "";
      spLoading := false;
      calls := [];
    }

    method BeginFetchOccupancy()
      modifies this
      ensures State() == Started(old(State())) && State().loading
      ensures calls == old(calls) + [GetOccupancy]
    {
      spLoading := true;
      calls := calls + [GetOccupancy];
    }

    method CompleteFetchOccupancy(result: Outcome<string>)
      modifies this
      ensures State() == Completed(old(State()), result, FailedTemperature)
      ensures calls == old(calls)
    {
      match result {
        case Ok(d) =>
          occupancy := Value(d);
        case Thrown(e) =>
          error := ErrorMessage(e);
          occupancy := Null;
        case _ =>
          error := FailedTemperature;
          occupancy := Null;
      }
      spLoading := false;
    }

    method FetchOccupancy(result: Outcome<string>)
      modifies this
      ensures State() == Fetched(old(State()), result, FailedTemperature)
      ensures calls == old(calls) + [GetOccupancy]
    {
      BeginFetchOccupancy();
      CompleteFetchOccupancy(result);
    }

    /** `ok` applies the posted code; a non-ok reply changes nothing; a thrown
        POST blanks the mode to `''` and records the error. The loading flag is
        never touched. */
    method ChangeOccupancy(value: string, result: Outcome<()>)
      modifies this
      ensures calls == old(calls) + [PostOccupancy]
      ensures occupancy == match result
                           case Ok(_) => Value(value)
                           case Thrown(_) => Value("")
                           case _ => old(occupancy)
      ensures error == if result.Thrown? then ErrorMessage(result.exception) else old(error)
      ensures spLoading == old(spLoading)
    {
      calls := calls + [PostOccupancy];
      match result {
        case Ok(_) =>
          occupancy := Value(value);
        case Thrown(e) =>
          occupancy := Value("");
          error := ErrorMessage(e);
        case _ =>
      }
    }
  }
}
