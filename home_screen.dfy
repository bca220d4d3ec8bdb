/** The dashboard screen: which loading flags hide the content, what the
    headings and footers show, which occupancy button is selected, what the
    meter card lists, and the refresh-on-mount-and-interval effect. */
module HomeScreen {
  import opened Js
  import opened Transport
  import opened Timers
  import opened Setpoint
  import BtuMeterHook
  import TempSetpointHook
  import RefreshAllData

  /** `OCCUPANCY_MODE`, in the order its buttons are laid out. */
  datatype OccupancyMode = Off | Auto | Heat | Cool {
    function Code(): string {
      match this
      case Off => "7"
      case Auto => "1"
      case Heat => "2"
      case Cool => "4"
    }
  }

  const AllModes: set<OccupancyMode> := {Off, Auto, Heat, Cool}

  /** The mode codes are pairwise distinct. */
  lemma CodesDistinct(m: OccupancyMode, n: OccupancyMode)
    ensures m.Code() == n.Code() <==> m == n
  {
  }

  /** `occupancy ?? OCCUPANCY_MODE.OFF`, the value every button compares against. */
  function CurrentValue(occupancy: Nullable<string>): (r: string)
    ensures occupancy.Value? ==> r == occupancy.value
    ensures !occupancy.Value? ==> r == Off.Code()
  {
    occupancy.Or(Off.Code())
  }

  /** The modes whose button renders as selected. A button is selected when
      `value == currentValue`; both are strings, so the loose equality is plain
      string equality. */
  function SelectedModes(occupancy: Nullable<string>): (r: set<OccupancyMode>)
    ensures forall m :: m in r <==> m.Code() == CurrentValue(occupancy)
    ensures |r| <= 1
  {
    var r := set m | m in AllModes && m.Code() == CurrentValue(occupancy);
    if r != {} then
      var m :| m in r;
      assert forall n | n in r :: n == m by {
        forall n | n in r ensures n == m {
          CodesDistinct(m, n);
        }
      }
      assert r == {m};
      r
    else
      r
  }

  /** A missing occupancy shows OFF as the selected mode. */
  lemma NullishSelectsOff(occupancy: Nullable<string>)
    requires !occupancy.Value?
    ensures SelectedModes(occupancy) == {Off}
  {
    assert Off in SelectedModes(occupancy);
  }

  /** A code outside the four selects no button, e.g. the initial `'0'` or the
      `''` a thrown occupancy POST leaves. */
  lemma UnknownCodeSelectsNone(code: string)
    requires code !in {"7", "1", "2", "4"}
    ensures SelectedModes(Value(code)) == {}
  {
    assert forall m: OccupancyMode :: m !in SelectedModes(Value(code));
  }

  /** A stored mode code selects exactly its own button. */
  lemma ModeSelectsItself(m: OccupancyMode)
    ensures SelectedModes(Value(m.Code())) == {m}
  {
    assert m in SelectedModes(Value(m.Code()));
  }

  /** The loading flags of every hook the screen uses. */
  datatype LoadingFlags = LoadingFlags(
    tempLoading: bool,
    spLoading: bool,
    dateTimeLoading: bool,
    humidityLoading: bool,
    occupancyLoading: bool,
    btuLoading: bool,
    weatherLoading: bool)

  /** The spinner replaces the content while this holds: the content shows
      only once the temperature, setpoint, date/time and humidity hooks have
      all finished loading. */
  predicate IsLoading(f: LoadingFlags)
    ensures !IsLoading(f) <==> !f.tempLoading && !f.spLoading && !f.dateTimeLoading && !f.humidityLoading
  {
    f.tempLoading || f.spLoading || f.dateTimeLoading || f.humidityLoading
  }

  /** The occupancy, BTU and weather loading flags never affect the spinner. */
  lemma IsLoadingIgnoresOthers(f: LoadingFlags, occupancyLoading: bool, btuLoading: bool, weatherLoading: bool)
    ensures IsLoading(f.(occupancyLoading := occupancyLoading, btuLoading := btuLoading, weatherLoading := weatherLoading))
         == IsLoading(f)
    ensures IsLoading(f) <==> f.tempLoading || f.spLoading || f.dateTimeLoading || f.humidityLoading
  {
  }

  /** A display slot: a translated template filled with a value, or its placeholder. */
  datatype Display<T> = Shown(value: T) | Placeholder

  /** The indoor heading tests `temp !== null`, so `undefined` takes the value
      branch and renders `temp?.toFixed(2)` of nothing (`None`). */
  function IndoorTempHeading(temp: Nullable<real>): (r: Display<Option<real>>)
    ensures r.Placeholder? <==> temp.Null?
    ensures temp.Value? ==> r == Shown(Some(temp.value))
    ensures temp.Undefined? ==> r == Shown(None)
  {
    if !temp.Null? then Shown(if temp.Value? then Some(temp.value) else None)
    else Placeholder
  }

  /** A footer over a string, the outdoor reading or the date: the text shows
      when it is truthy (non-empty), the placeholder otherwise. */
  function TextFooter(text: string): (r: Display<string>)
    ensures r.Placeholder? <==> text == ""
    ensures r.Shown? ==> r.value == text
  {
    if text != "" then Shown(text) else Placeholder
  }

  /** `humidity?.toFixed(1)` is a non-empty string for every number, 0 included,
      so the placeholder shows exactly when the humidity is nullish. */
  function HumidityFooter(humidity: Nullable<real>): (r: Display<real>)
    ensures r.Placeholder? <==> !humidity.Value?
    ensures r.Shown? ==> r.value == humidity.value
  {
    if humidity.Value? then Shown(humidity.value) else Placeholder
  }

  /** The footer row: outdoor reading, humidity and date. */
  datatype FooterView = FooterView(outdoor: Display<string>, humidity: Display<real>, date: Display<string>)

  /** Each footer slot falls back to its placeholder on its own; a humidity of
      exactly 0 is still shown. */
  function Footers(outdoorAirTemp: string, humidity: Nullable<real>, date: string): (r: FooterView)
    ensures r.outdoor.Placeholder? <==> outdoorAirTemp == ""
    ensures r.humidity.Placeholder? <==> !humidity.Value?
    ensures r.date.Placeholder? <==> date == ""
    ensures humidity == Value(0.0) ==> r.humidity == Shown(0.0)
    ensures r.outdoor.Shown? ==> r.outdoor.value == outdoorAirTemp
    ensures r.date.Shown? ==> r.date.value == date
  {
    FooterView(TextFooter(outdoorAirTemp), HumidityFooter(humidity), TextFooter(date))
  }

  /** A meter metric's value: `x?.toFixed(1) ?? 0.0`, the one-decimal text of a
      reading or the number zero. */
  datatype MetricValue = Fixed1Text(x: real) | Zero

  datatype DeviceMetric = DeviceMetric(labelKey: string, value: MetricValue)

  function MetricOf(x: Nullable<real>): (r: MetricValue)
    ensures r.Zero? <==> !x.Value?
    ensures r.Fixed1Text? ==> r.x == x.value
  {
    if x.Value? then Fixed1Text(x.value) else Zero
  }

  /** The meter card's four rows. The water-consumption row repeats the
      accumulated consumption; the supply temperature is not shown. */
  function MeterMetrics(d: BtuMeterHook.BtuData): (r: seq<DeviceMetric>)
    ensures |r| == 4
    ensures r[0] == DeviceMetric("meter:rate", MetricOf(d.rate))
    ensures r[1] == DeviceMetric("meter:AccumulatedConsumption", MetricOf(d.accumulatedConsumption))
    ensures r[2] == DeviceMetric("meter:monthlyCost", MetricOf(d.monthlyCost))
    ensures r[3] == DeviceMetric("meter:waterConsumption", MetricOf(d.accumulatedConsumption))
  {
    [ DeviceMetric("meter:rate", MetricOf(d.rate)),
      DeviceMetric("meter:AccumulatedConsumption", MetricOf(d.accumulatedConsumption)),
      DeviceMetric("meter:monthlyCost", MetricOf(d.monthlyCost)),
      DeviceMetric("meter:waterConsumption", MetricOf(d.accumulatedConsumption)) ]
  }

  /** The meter card ignores the supply temperature, its water row repeats the
      accumulated-consumption row, and the initial readings show four zeros. */
  lemma MeterMetricsIgnoreSupplyTemp(d: BtuMeterHook.BtuData, t: Nullable<real>)
    ensures MeterMetrics(d.(supplyTemp := t)) == MeterMetrics(d)
    ensures forall i :: 0 <= i < 4 ==> MeterMetrics(BtuMeterHook.Initial.data)[i].value == Zero
    ensures MeterMetrics(d)[3].value == MeterMetrics(d)[1].value
  {
  }

  const RefreshIntervalMs := 10.0 * 60.0 * 1000.0

  /** The setpoint buttons' step. */
  const Step := 0.5

  /** The screen's own effect and buttons, over the stores wired to the
      coordinator. */
  class Dashboard {
    const coordinator: RefreshAllData.Coordinator
    var interval: Option<nat>

    constructor(coordinator: RefreshAllData.Coordinator)
      ensures this.coordinator == coordinator && interval.None?
    {
      this.coordinator := coordinator;
      interval := None;
    }

    /** The mount effect: one refresh, then one ten-minute interval. */
    method Mount(timers: IntervalTimers, r: RefreshAllData.RefreshResults)
      requires timers.Valid()
      modifies this, timers, coordinator.temperature, coordinator.humidity, coordinator.occupancy,
        coordinator.setpoint, coordinator.dateTime, coordinator.water, coordinator.btu, coordinator.weather
      ensures timers.Valid()
      ensures coordinator.Refreshed(r)
      ensures interval.Some? && interval.value !in old(timers.live)
      ensures timers.live == old(timers.live)[interval.value := RefreshIntervalMs]
    {
      coordinator.Refresh(r);
      var id := timers.SetInterval(RefreshIntervalMs);
      interval := Some(id);
    }

    /** The effect's cleanup clears the interval. */
    method Unmount(timers: IntervalTimers)
      requires timers.Valid() && interval.Some?
      modifies timers
      ensures timers.Valid()
      ensures timers.live == old(timers.live) - {interval.value}
    {
      timers.ClearInterval(interval.value);
    }

    /** The interval's callback, which runs only while it is registered. */
    method OnInterval(timers: IntervalTimers, r: RefreshAllData.RefreshResults)
      requires interval.Some? && interval.value in timers.live
      modifies coordinator.temperature, coordinator.humidity, coordinator.occupancy,
        coordinator.setpoint, coordinator.dateTime, coordinator.water, coordinator.btu, coordinator.weather
      ensures coordinator.Refreshed(r)
    {
      coordinator.Refresh(r);
    }

    /** The `+` button: `incrementTempSp(0.5)`. */
    method PressIncrease(result: Outcome<()>) returns (sent: SetpointPayload)
      modifies coordinator.setpoint
      ensures sent == TempSetpointHook.IncrementPayload(old(coordinator.setpoint.tempSetpoint), Step)
      ensures coordinator.setpoint.tempSetpoint
           == if result.Ok? then Shifted(old(coordinator.setpoint.tempSetpoint), Step)
              else old(coordinator.setpoint.tempSetpoint)
      ensures coordinator.setpoint.error
           == if result.Thrown? then ErrorMessage(result.exception) else old(coordinator.setpoint.error)
      ensures coordinator.setpoint.spLoading == old(coordinator.setpoint.spLoading)
      ensures coordinator.setpoint.calls == old(coordinator.setpoint.calls) + [PostTempSetpoint]
    {
      sent := coordinator.setpoint.IncrementTempSp(Step, result);
    }

    /** The `−` button: `decrementTempSp(0.5)`. */
    method PressDecrease(result: Outcome<()>) returns (sent: Option<SetpointPayload>)
      modifies coordinator.setpoint
      ensures sent == TempSetpointHook.DecrementPayload(old(coordinator.setpoint.tempSetpoint), Step)
      ensures coordinator.setpoint.tempSetpoint
           == if sent.Some? && result.Ok? then Shifted(old(coordinator.setpoint.tempSetpoint), -Step)
              else old(coordinator.setpoint.tempSetpoint)
      ensures coordinator.setpoint.error
           == if sent.None? then ErrorMessage(ToFixedOnNullish(old(coordinator.setpoint.tempSetpoint)))
              else if result.Thrown? then ErrorMessage(result.exception)
              else old(coordinator.setpoint.error)
      ensures coordinator.setpoint.spLoading == old(coordinator.setpoint.spLoading)
      ensures coordinator.setpoint.calls
           == old(coordinator.setpoint.calls) + (if sent.Some? then [PostTempSetpoint] else [])
    {
      sent := coordinator.setpoint.DecrementTempSp(Step, result);
    }

    /** A mode button: `changeOccupancy(mode)`. After an `ok` reply exactly that
        button is selected; after a throw none is. */
    method PressMode(m: OccupancyMode, result: Outcome<()>)
      modifies coordinator.occupancy
      ensures result.Ok? ==> SelectedModes(coordinator.occupancy.occupancy) == {m}
      ensures result.Thrown? ==> SelectedModes(coordinator.occupancy.occupancy) == {}
      ensures coordinator.occupancy.occupancy == match result
                case Ok(_) => Value(m.Code())
                case Thrown(_) => Value("")
                case _ => old(coordinator.occupancy.occupancy)
      ensures coordinator.occupancy.error
           == if result.Thrown? then ErrorMessage(result.exception) else old(coordinator.occupancy.error)
      ensures coordinator.occupancy.spLoading == old(coordinator.occupancy.spLoading)
      ensures coordinator.occupancy.calls == old(coordinator.occupancy.calls) + [PostOccupancy]
    {
      coordinator.occupancy.ChangeOccupancy(m.Code(), result);
      if result.Ok? {
        ModeSelectsItself(m);
      } else if result.Thrown? {
        UnknownCodeSelectsNone("");
      }
    }
  }

  /** Mounting then unmounting leaves the timers as they were. */
  method MountThenUnmount(d: Dashboard, timers: IntervalTimers, r: RefreshAllData.RefreshResults)
    requires timers.Valid()
    modifies d, timers, d.coordinator.temperature, d.coordinator.humidity, d.coordinator.occupancy,
      d.coordinator.setpoint, d.coordinator.dateTime, d.coordinator.water, d.coordinator.btu, d.coordinator.weather
    ensures timers.Valid() && timers.live == old(timers.live)
  {
    ghost var before := timers.live;
    d.Mount(timers, r);
    d.Unmount(timers);
    ClearAfterSet(before, d.interval.value, RefreshIntervalMs);
  }
}
