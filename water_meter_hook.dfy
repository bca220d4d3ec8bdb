/** The water meter hook: the shut-off valve and leak detector statuses, a POST
    that opens or closes the valve, a refresh that brackets both fetches with a
    loading flag, and the same mount/interval effect as the BTU meter hook. */
module WaterMeterHook {
  import opened Js
  import opened Transport
  import opened Timers

  /** The `DefaultDeviceState` values. The fields are typed with them, but the
      transport and the POST can store any string. */
  const Active := "Active"
  const Inactive := "Inactive"

  datatype WaterField = ValveStatus | DetectorStatus

  datatype WaterData = WaterData(valveStatus: Nullable<string>, detectorStatus: Nullable<string>)

  type Errors = map<WaterField, string>

  datatype WaterState = WaterState(data: WaterData, isLoading: bool, errors: Errors)

  const Initial := WaterState(WaterData(Null, Null), false, map[])

  /** The `refreshInterval` default, in milliseconds, which every call site relies on. */
  const DefaultRefreshInterval := 10000.0

  /** `fetchShutoffValveStatus`. `ok` stores the status and leaves the errors as
      they are; an `error` result blanks the valve error instead of recording
      the message; `bad-data` is ignored; a throw records `Error: …`. */
  function ValveFetched(s: WaterState, result: Outcome<string>): (r: WaterState)
    ensures r.isLoading == s.isLoading && r.data.detectorStatus == s.data.detectorStatus
    ensures r.data.valveStatus == if result.Ok? then Value(result.data) else s.data.valveStatus
    ensures (result.Ok? || result.BadData?) ==> r.errors == s.errors
    ensures result.Err? ==> r.errors == s.errors[ValveStatus := ""]
    ensures result.Thrown? ==> r.errors == s.errors[ValveStatus := ErrorMessage(result.exception)]
  {
    match result
    case Ok(d) => s.(data := s.data.(valveStatus := Value(d)))
    case Err(_) => s.(errors := s.errors[ValveStatus := ""])
    case BadData => s
    case Thrown(e) => s.(errors := s.errors[ValveStatus := ErrorMessage(e)])
  }

  /** The valve fetch never records a transport error message: two `error`
      results with different messages leave the same state. */
  lemma ValveFetchDropsMessage(s: WaterState, m1: string, m2: string)
    ensures ValveFetched(s, Err(m1)) == ValveFetched(s, Err(m2))
    ensures ValveStatus in ValveFetched(s, Err(m1)).errors && ValveFetched(s, Err(m1)).errors[ValveStatus] == ""
  {
  }

  /** `fetchDetectorStatus`: `ok` stores the status and blanks its error; an
      `error` result records the message; `bad-data` is ignored; a throw records
      `Error: …`. */
  function DetectorFetched(s: WaterState, result: Outcome<string>): (r: WaterState)
    ensures r.isLoading == s.isLoading && r.data.valveStatus == s.data.valveStatus
    ensures r.data.detectorStatus == if result.Ok? then Value(result.data) else s.data.detectorStatus
    ensures result.BadData? ==> r.errors == s.errors
    ensures result.Ok? ==> r.errors == s.errors[DetectorStatus := ""]
    ensures result.Err? ==> r.errors == s.errors[DetectorStatus := result.error]
    ensures result.Thrown? ==> r.errors == s.errors[DetectorStatus := ErrorMessage(result.exception)]
  {
    match result
    case Ok(d) => s.(data := s.data.(detectorStatus := Value(d)), errors := s.errors[DetectorStatus := ""])
    case Err(message) => s.(errors := s.errors[DetectorStatus := message])
    case BadData => s
    case Thrown(e) => s.(errors := s.errors[DetectorStatus := ErrorMessage(e)])
  }

  /** `postWaterShutoffValve(value)`: the valve status changes only after an
      `ok` reply; a thrown POST records `Error …` without the colon the fetches use. */
  function ValvePosted(s: WaterState, value: string, result: Outcome<()>): (r: WaterState)
    ensures r.isLoading == s.isLoading && r.data.detectorStatus == s.data.detectorStatus
    ensures r.data.valveStatus == if result.Ok? then Value(value) else s.data.valveStatus
    ensures result.BadData? ==> r.errors == s.errors
    ensures result.Ok? ==> r.errors == s.errors[ValveStatus := ""]
    ensures result.Err? ==> r.errors == s.errors[ValveStatus := result.error]
    ensures result.Thrown? ==> r.errors == s.errors[ValveStatus := "Error " + ToText(result.exception)]
  {
    match result
    case Ok(_) => s.(data := s.data.(valveStatus := Value(value)), errors := s.errors[ValveStatus := ""])
    case Err(message) => s.(errors := s.errors[ValveStatus := message])
    case BadData => s
    case Thrown(e) => s.(errors := s.errors[ValveStatus := "Error " + ToText(e)])
  }

  /** A successful POST followed by a fetch that fails with an `error` result
      leaves the posted status in place with a blank valve error. */
  lemma PostThenFailedFetch(s: WaterState, value: string, message: string)
    ensures ValveFetched(ValvePosted(s, value, Ok(())), Err(message)).data.valveStatus == Value(value)
    ensures ValveFetched(ValvePosted(s, value, Ok(())), Err(message)).errors[ValveStatus] == ""
  {
  }

  lemma FetchesCommuteErrors(s: WaterState, valveResult: Outcome<string>, detectorResult: Outcome<string>)
    ensures ValveFetched(DetectorFetched(s, detectorResult), valveResult).errors
         == DetectorFetched(ValveFetched(s, valveResult), detectorResult).errors
  {
    var a := ValveFetched(DetectorFetched(s, detectorResult), valveResult).errors;
    var b := DetectorFetched(ValveFetched(s, valveResult), detectorResult).errors;
    assert a.Keys == b.Keys;
    assert forall k :: k in a ==> a[k] == b[k];
  }

  /** The two fetches write disjoint slices, so their order does not matter. */
  lemma {:induction false} FetchesCommute(s: WaterState, valveResult: Outcome<string>, detectorResult: Outcome<string>)
    ensures ValveFetched(DetectorFetched(s, detectorResult), valveResult)
         == DetectorFetched(ValveFetched(s, valveResult), detectorResult)
  {
    FetchesCommuteErrors(s, valveResult, detectorResult);
  }

  /** `refreshAllWaterData`: loading on, valve then detector, loading off. */
  function Refreshed(s: WaterState, valveResult: Outcome<string>, detectorResult: Outcome<string>): (r: WaterState)
    ensures !r.isLoading
  {
    DetectorFetched(ValveFetched(s.(isLoading := true), valveResult), detectorResult).(isLoading := false)
  }

  class WaterMeterStore {
    var waterData: WaterData
    var isLoading: bool
    var errors: Errors
    const refreshInterval: real
    var intervalId: Option<nat>
    ghost var calls: seq<Endpoint>

    function State(): WaterState
      reads this
    {
      WaterState(waterData, isLoading, errors)
    }

    constructor(refreshInterval: real := DefaultRefreshInterval)
      ensures State() == Initial && intervalId.None? && calls == []
      ensures this.refreshInterval == refreshInterval
    {
      waterData := WaterData(Null, Null);
      isLoading := false;
      errors := map[];
      this.refreshInterval := refreshInterval;
      intervalId := None;
      calls := [];
    }

    method FetchShutoffValveStatus(result: Outcome<string>)
      modifies this
      ensures State() == ValveFetched(old(State()), result)
      ensures intervalId == old(intervalId)
      ensures calls == old(calls) + [GetWaterShutoffValve]
    {
      calls := calls + [GetWaterShutoffValve];
      match result {
        case Ok(d) =>
          waterData := waterData.(valveStatus := Value(d));
        case Err(_) =>
          errors := errors[ValveStatus := ""];
        case BadData =>
        case Thrown(e) =>
          errors := errors[ValveStatus := ErrorMessage(e)];
      }
    }

    method FetchDetectorStatus(result: Outcome<string>)
      modifies this
      ensures State() == DetectorFetched(old(State()), result)
      ensures intervalId == old(intervalId)
      ensures calls == old(calls) + [GetWaterDetectorStatus]
    {
      calls := calls + [GetWaterDetectorStatus];
      match result {
        case Ok(d) =>
          waterData := waterData.(detectorStatus := Value(d));
          errors := errors[DetectorStatus := ""];
        case Err(message) =>
          errors := errors[DetectorStatus := message];
        case BadData =>
        case Thrown(e) =>
          errors := errors[DetectorStatus := ErrorMessage(e)];
      }
    }

    method PostWaterShutoffValve(value: string, result: Outcome<()>)
      modifies this
      ensures State() == ValvePosted(old(State()), value, result)
      ensures intervalId == old(intervalId)
      ensures calls == old(calls) + [Endpoint.PostWaterShutoffValve]
    {
      calls := calls + [Endpoint.PostWaterShutoffValve];
      match result {
        case Ok(_) =>
          waterData := waterData.(valveStatus := Value(value));
          errors := errors[ValveStatus := ""];
        case Err(message) =>
          errors := errors[ValveStatus := message];
        case BadData =>
        case Thrown(e) =>
          errors := errors[ValveStatus := "Error " + ToText(e)];
      }
    }

    method RefreshAllWaterData(valveResult: Outcome<string>, detectorResult: Outcome<string>)
      modifies this
      ensures State() == Refreshed(old(State()), valveResult, detectorResult)
      ensures intervalId == old(intervalId)
      ensures calls == old(calls) + [GetWaterShutoffValve, GetWaterDetectorStatus]
    {
      isLoading := true;
      FetchShutoffValveStatus(valveResult);
      FetchDetectorStatus(detectorResult);
      isLoading := false;
    }

    /** One immediate refresh, then one interval when `refreshInterval > 0`. */
    method Mount(timers: IntervalTimers, valveResult: Outcome<string>, detectorResult: Outcome<string>)
      returns (hasCleanup: bool)
      requires timers.Valid()
      modifies this, timers
      ensures timers.Valid()
      ensures State() == Refreshed(old(State()), valveResult, detectorResult)
      ensures calls == old(calls) + [GetWaterShutoffValve, GetWaterDetectorStatus]
      ensures hasCleanup <==> refreshInterval > 0.0
      ensures hasCleanup ==> intervalId.Some? && intervalId.value !in old(timers.live)
                             && timers.live == old(timers.live)[intervalId.value := refreshInterval]
      ensures !hasCleanup ==> intervalId == old(intervalId) && timers.live == old(timers.live)
    {
      RefreshAllWaterData(valveResult, detectorResult);
      if refreshInterval > 0.0 {
        var id := timers.SetInterval(refreshInterval);
        intervalId := Some(id);
        hasCleanup := true;
      } else {
        hasCleanup := false;
      }
    }

    method Unmount(timers: IntervalTimers)
      requires timers.Valid()
      modifies timers
      ensures timers.Valid()
      ensures intervalId.Some? ==> timers.live == old(timers.live) - {intervalId.value}
      ensures intervalId.None? ==> timers.live == old(timers.live)
    {
      if intervalId.Some? {
        timers.ClearInterval(intervalId.value);
      }
    }

    method OnInterval(timers: IntervalTimers, valveResult: Outcome<string>, detectorResult: Outcome<string>)
      requires intervalId.Some? && intervalId.value in timers.live
      modifies this
      ensures State() == Refreshed(old(State()), valveResult, detectorResult)
      ensures intervalId == old(intervalId)
      ensures calls == old(calls) + [GetWaterShutoffValve, GetWaterDetectorStatus]
    {
      RefreshAllWaterData(valveResult, detectorResult);
    }
  }

  /** Mounting then unmounting leaves no interval behind. */
  method MountThenUnmount(store: WaterMeterStore, timers: IntervalTimers, valveResult: Outcome<string>, detectorResult: Outcome<string>)
    requires timers.Valid()
    modifies store, timers
    ensures timers.Valid() && timers.live == old(timers.live)
    ensures store.State() == Refreshed(old(store.State()), valveResult, detectorResult)
    ensures store.calls == old(store.calls) + [GetWaterShutoffValve, GetWaterDetectorStatus]
  {
    ghost var before := timers.live;
    var hasCleanup := store.Mount(timers, valveResult, detectorResult);
    if hasCleanup {
      store.Unmount(timers);
      ClearAfterSet(before, store.intervalId.value, store.refreshInterval);
    }
  }
}
