/** The refresh coordinator: it owns no state and only invokes thirteen fetch
    functions handed to it. Here it holds the stores those functions belong
    to, and one refresh applies each fetch exactly once, one after another. */
module RefreshAllData {
  import opened Js
  import opened Transport
  import Metric
  import TemperatureHook
  import HumidityHook
  import OccupancyHook
  import TempSetpointHook
  import DateTimeHook
  import WaterMeterHook
  import BtuMeterHook
  import WeatherHook

  /** What each of the thirteen transport calls of one refresh produces. */
  datatype RefreshResults = RefreshResults(
    temp: Outcome<real>,
    humidity: Outcome<string>,
    occupancy: Outcome<string>,
    tempSetpoint: Outcome<real>,
    dateTime: Outcome<DateTimeHook.DateTimeData>,
    shutoffValve: Outcome<string>,
    detector: Outcome<string>,
    supplyTemp: Outcome<real>,
    monthlyCost: Outcome<real>,
    rate: Outcome<real>,
    accumulatedConsumption: Outcome<real>,
    weatherTemp: Outcome<string>,
    weatherStatus: Outcome<string>)

  /** The BTU store after its four field fetches, in list order. */
  function BtuFetched(s: BtuMeterHook.BtuState, r: RefreshResults): BtuMeterHook.BtuState {
    BtuMeterHook.FieldFetched(BtuMeterHook.FieldFetched(BtuMeterHook.FieldFetched(BtuMeterHook.FieldFetched(s,
      BtuMeterHook.SupplyTemp, r.supplyTemp),
      BtuMeterHook.MonthlyCost, r.monthlyCost),
      BtuMeterHook.Rate, r.rate),
      BtuMeterHook.AccumulatedConsumption, r.accumulatedConsumption)
  }

  class Coordinator {
    const temperature: TemperatureHook.TemperatureStore
    const humidity: HumidityHook.HumidityStore
    const occupancy: OccupancyHook.OccupancyStore
    const setpoint: TempSetpointHook.TempSetpointStore
    const dateTime: DateTimeHook.DateTimeStore
    const water: WaterMeterHook.WaterMeterStore
    const btu: BtuMeterHook.BtuMeterStore
    const weather: WeatherHook.WeatherStore

    constructor(
      temperature: TemperatureHook.TemperatureStore,
      humidity: HumidityHook.HumidityStore,
      occupancy: OccupancyHook.OccupancyStore,
      setpoint: TempSetpointHook.TempSetpointStore,
      dateTime: DateTimeHook.DateTimeStore,
      water: WaterMeterHook.WaterMeterStore,
      btu: BtuMeterHook.BtuMeterStore,
      weather: WeatherHook.WeatherStore)
      ensures this.temperature == temperature && this.humidity == humidity
      ensures this.occupancy == occupancy && this.setpoint == setpoint
      ensures this.dateTime == dateTime && this.water == water
      ensures this.btu == btu && this.weather == weather
    {
      this.temperature := temperature;
      this.humidity := humidity;
      this.occupancy := occupancy;
      this.setpoint := setpoint;
      this.dateTime := dateTime;
      this.water := water;
      this.btu := btu;
      this.weather := weather;
    }

    /** What one refresh leaves in every store, relative to the state before it. */
    twostate predicate Refreshed(r: RefreshResults)
      reads this, temperature, humidity, occupancy, setpoint, dateTime, water, btu, weather
    {
      && temperature.State() == Metric.Fetched(old(temperature.State()), r.temp, Metric.FailedTemperature)
      && humidity.State()
         == Metric.Fetched(old(humidity.State()), MapOk(r.humidity, humidity.parseFloat), Metric.FailedTemperature)
      && occupancy.State() == Metric.Fetched(old(occupancy.State()), r.occupancy, Metric.FailedTemperature)
      && setpoint.State() == Metric.Fetched(old(setpoint.State()), r.tempSetpoint, Metric.FailedTemperature)
      && dateTime.State() == DateTimeHook.Fetched(old(dateTime.State()), r.dateTime, dateTime.localeDate)
      && water.State()
         == WaterMeterHook.DetectorFetched(WaterMeterHook.ValveFetched(old(water.State()), r.shutoffValve), r.detector)
      && btu.State() == BtuFetched(old(btu.State()), r)
      && weather.State()
         == WeatherHook.Fetched(WeatherHook.Fetched(old(weather.State()),
              WeatherHook.OutdoorAirTemp, r.weatherTemp), WeatherHook.Status, r.weatherStatus)
      && temperature.calls == old(temperature.calls) + [GetTemp]
      && humidity.calls == old(humidity.calls) + [GetHumidity]
      && occupancy.calls == old(occupancy.calls) + [GetOccupancy]
      && setpoint.calls == old(setpoint.calls) + [GetTempSetpoint]
      && dateTime.calls == old(dateTime.calls) + [GetDateTime]
      && water.calls == old(water.calls) + [GetWaterShutoffValve, GetWaterDetectorStatus]
      && btu.calls
         == old(btu.calls) + [GetBtuMeterSupplyTemp, GetBtuMonthlyCost, GetBtuRate, GetBtuAccumulatedConsumption]
      && weather.calls == old(weather.calls) + [GetWeatherTemp, GetWeatherStatus]
      && water.intervalId == old(water.intervalId) && btu.intervalId == old(btu.intervalId)
    }

    /** One refresh: every supplied fetch runs once, in the order of the list.
        Each fetch catches its own failures, so the coordinator's catch never
        fires and the refresh always completes. */
    method Refresh(r: RefreshResults)
      modifies temperature, humidity, occupancy, setpoint, dateTime, water, btu, weather
      ensures Refreshed(r)
    {
      RefreshReadings(r);
      RefreshDevices(r);
    }

    /** The first five fetches of a refresh: the single-value readings. */
    method RefreshReadings(r: RefreshResults)
      modifies temperature, humidity, occupancy, setpoint, dateTime
      ensures temperature.State() == Metric.Fetched(old(temperature.State()), r.temp, Metric.FailedTemperature)
      ensures humidity.State()
           == Metric.Fetched(old(humidity.State()), MapOk(r.humidity, humidity.parseFloat), Metric.FailedTemperature)
      ensures occupancy.State() == Metric.Fetched(old(occupancy.State()), r.occupancy, Metric.FailedTemperature)
      ensures setpoint.State() == Metric.Fetched(old(setpoint.State()), r.tempSetpoint, Metric.FailedTemperature)
      ensures dateTime.State() == DateTimeHook.Fetched(old(dateTime.State()), r.dateTime, dateTime.localeDate)
      ensures temperature.calls == old(temperature.calls) + [GetTemp]
      ensures humidity.calls == old(humidity.calls) + [GetHumidity]
      ensures occupancy.calls == old(occupancy.calls) + [GetOccupancy]
      ensures setpoint.calls == old(setpoint.calls) + [GetTempSetpoint]
      ensures dateTime.calls == old(dateTime.calls) + [GetDateTime]
    {
      temperature.FetchTemp(r.temp);
      humidity.FetchHumidity(r.humidity);
      occupancy.FetchOccupancy(r.occupancy);
      setpoint.FetchTempSp(r.tempSetpoint);
      dateTime.FetchDateTime(r.dateTime);
    }

    /** The remaining eight: the water meter, the BTU meter and the weather. */
    method RefreshDevices(r: RefreshResults)
      modifies water, btu, weather
      ensures water.State()
           == WaterMeterHook.DetectorFetched(WaterMeterHook.ValveFetched(old(water.State()), r.shutoffValve), r.detector)
      ensures btu.State() == BtuFetched(old(btu.State()), r)
      ensures weather.State()
           == WeatherHook.Fetched(WeatherHook.Fetched(old(weather.State()),
                WeatherHook.OutdoorAirTemp, r.weatherTemp), WeatherHook.Status, r.weatherStatus)
      ensures water.calls == old(water.calls) + [GetWaterShutoffValve, GetWaterDetectorStatus]
      ensures btu.calls
           == old(btu.calls) + [GetBtuMeterSupplyTemp, GetBtuMonthlyCost, GetBtuRate, GetBtuAccumulatedConsumption]
      ensures weather.calls == old(weather.calls) + [GetWeatherTemp, GetWeatherStatus]
      ensures water.intervalId == old(water.intervalId) && btu.intervalId == old(btu.intervalId)
    {
      water.FetchShutoffValveStatus(r.shutoffValve);
      water.FetchDetectorStatus(r.detector);
      RefreshBtuFields(r);
      weather.FetchWeatherTemp(r.weatherTemp);
      weather.FetchWeatherStatus(r.weatherStatus);
    }

    /** The four BTU field fetches, without the hook's own loading bracket. */
    method RefreshBtuFields(r: RefreshResults)
      modifies btu
      ensures btu.State() == BtuFetched(old(btu.State()), r)
      ensures btu.calls
           == old(btu.calls) + [GetBtuMeterSupplyTemp, GetBtuMonthlyCost, GetBtuRate, GetBtuAccumulatedConsumption]
      ensures btu.intervalId == old(btu.intervalId)
    {
      btu.FetchField(BtuMeterHook.SupplyTemp, r.supplyTemp);
      btu.FetchField(BtuMeterHook.MonthlyCost, r.monthlyCost);
      btu.FetchField(BtuMeterHook.Rate, r.rate);
      btu.FetchField(BtuMeterHook.AccumulatedConsumption, r.accumulatedConsumption);
    }
  }
}
