/** The transport client as the hooks see it: one call per endpoint, whose
    outcome is handed to the model instead of being fetched over the network. */
module Transport {
  import opened Js

  /** What awaiting an `api.*` call produces: a result object of kind `ok`,
      `error` or `bad-data`, or an exception thrown out of the `await`. */
  datatype Outcome<T> =
    | Ok(data: T)
    | Err(error: string)
    | BadData
    | Thrown(exception: Exception)

  /** The same outcome with the `ok` payload converted, as `parseFloat(result.data)` does. */
  function MapOk<T, U>(o: Outcome<T>, f: T -> U): (r: Outcome<U>)
    ensures r.Ok? <==> o.Ok?
    ensures o.Ok? ==> r.data == f(o.data)
    ensures o.Err? ==> r == Err(o.error)
    ensures o.BadData? ==> r == BadData
    ensures o.Thrown? ==> r == Thrown(o.exception)
  {
    match o
    case Ok(d) => Ok(f(d))
    case Err(e) => Err(e)
    case BadData => BadData
    case Thrown(e) => Thrown(e)
  }

  /** The device endpoints the hooks call. */
  datatype Endpoint =
    | GetTemp | GetHumidity | GetDateTime
    | GetTempSetpoint | PostTempSetpoint
    | GetOccupancy | PostOccupancy
    | GetWeatherTemp | GetWeatherStatus
    | GetWaterShutoffValve | GetWaterDetectorStatus | PostWaterShutoffValve
    | GetBtuMeterSupplyTemp | GetBtuMonthlyCost | GetBtuRate | GetBtuAccumulatedConsumption
}
