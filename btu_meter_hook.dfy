/** The BTU (heat) meter hook: four independent field fetches, each patching
    one field of the meter record and one key of the error record; a refresh
    that brackets all four with a loading flag; and a mount effect that
    refreshes once and then on an interval. */
module BtuMeterHook {
  import opened Js
  import opened Transport
  import opened Timers

  datatype BtuField = SupplyTemp | MonthlyCost | Rate | AccumulatedConsumption

  /** The four meter readings; the fields are typed `number | null`. */
  datatype BtuData = BtuData(
    supplyTemp: Nullable<real>,
    monthlyCost: Nullable<real>,
    rate: Nullable<real>,
    accumulatedConsumption: Nullable<real>)
  {
    function Get(f: BtuField): Nullable<real> {
      match f
      case SupplyTemp => supplyTemp
      case MonthlyCost => monthlyCost
      case Rate => rate
      case AccumulatedConsumption => accumulatedConsumption
    }

    /** `prev => ({ ...prev, [f]: v })`. */
    function With(f: BtuField, v: Nullable<real>): (r: BtuData)
      ensures r.Get(f) == v
      ensures forall g :: g != f ==> r.Get(g) == Get(g)
    {
      match f
      case SupplyTemp => this.(supplyTemp := v)
      case MonthlyCost => this.(monthlyCost := v)
      case Rate => this.(rate := v)
      case AccumulatedConsumption => this.(accumulatedConsumption := v)
    }
  }

  /** The `errors` record, keyed by field name; a missing key has never been written. */
  type Errors = map<BtuField, string>

  datatype BtuState = BtuState(data: BtuData, isLoading: bool, errors: Errors)

  const Initial := BtuState(BtuData(Null, Null, Null, Null), false, map[])

  /** The `refreshInterval` default, in milliseconds, which every call site relies on. */
  const DefaultRefreshInterval := 10000.0

  function EndpointFor(f: BtuField): Endpoint {
    match f
    case SupplyTemp => GetBtuMeterSupplyTemp
    case MonthlyCost => GetBtuMonthlyCost
    case Rate => GetBtuRate
    case AccumulatedConsumption => GetBtuAccumulatedConsumption
  }

  /** One field fetch. `ok` stores the reading and blanks that field's error;
      `error` records the transport's message; `bad-data` is ignored; a throw
      records `Error: …`. The loading flag is not touched. */
  function FieldFetched(s: BtuState, f: BtuField, result: Outcome<real>): (r: BtuState)
    ensures r.isLoading == s.isLoading
    ensures r.data.Get(f) == if result.Ok? then Value(result.data) else s.data.Get(f)
    ensures forall g :: g != f ==> r.data.Get(g) == s.data.Get(g)
    ensures result.BadData? ==> r == s
    ensures forall g :: g != f ==> (g in r.errors <==> g in s.errors)
    ensures forall g :: g != f && g in s.errors ==> r.errors[g] == s.errors[g]
    ensures !result.BadData? ==> f in r.errors
    ensures result.Ok? ==> r.errors[f] == ""
    ensures result.Err? ==> r.errors[f] == result.error
    ensures result.Thrown? ==> r.errors[f] == ErrorMessage(result.exception)
  {
    match result
    case Ok(d) => s.(data := s.data.With(f, Value(d)), errors := s.errors[f := ""])
    case Err(message) => s.(errors := s.errors[f := message])
    case BadData => s
    case Thrown(e) => s.(errors := s.errors[f := ErrorMessage(e)])
  }

  lemma {:induction false} FieldFetchesCommuteData(s: BtuState, f: BtuField, rf: Outcome<real>, g: BtuField, rg: Outcome<real>)
    requires f != g
    ensures FieldFetched(FieldFetched(s, f, rf), g, rg).data == FieldFetched(FieldFetched(s, g, rg), f, rf).data
  {
    var a := FieldFetched(FieldFetched(s, f, rf), g, rg).data;
    var b := FieldFetched(FieldFetched(s, g, rg), f, rf).data;
    assert a.Get(f) == b.Get(f) && a.Get(g) == b.Get(g);
    assert a.Get(SupplyTemp) == b.Get(SupplyTemp);
    assert a.Get(MonthlyCost) == b.Get(MonthlyCost);
    assert a.Get(Rate) == b.Get(Rate);
    assert a.Get(AccumulatedConsumption) == b.Get(AccumulatedConsumption);
  }

  lemma {:induction false} FieldFetchesCommuteErrors(s: BtuState, f: BtuField, rf: Outcome<real>, g: BtuField, rg: Outcome<real>)
    requires f != g
    ensures FieldFetched(FieldFetched(s, f, rf), g, rg).errors == FieldFetched(FieldFetched(s, g, rg), f, rf).errors
  {
    var a := FieldFetched(FieldFetched(s, f, rf), g, rg).errors;
    var b := FieldFetched(FieldFetched(s, g, rg), f, rf).errors;
    assert a.Keys == b.Keys;
    assert forall h :: h in a ==> a[h] == b[h];
  }

  /** Fetches of two different fields write disjoint slices of the state, so
      they give the same final state in either order. */
  lemma {:induction false} FieldFetchesCommute(s: BtuState, f: BtuField, rf: Outcome<real>, g: BtuField, rg: Outcome<real>)
    requires f != g
    ensures FieldFetched(FieldFetched(s, f, rf), g, rg) == FieldFetched(FieldFetched(s, g, rg), f, rf)
  {
    FieldFetchesCommuteData(s, f, rf, g, rg);
    FieldFetchesCommuteErrors(s, f, rf, g, rg);
  }

  /** The outcomes of one refresh, one per field. */
  datatype BtuResults = BtuResults(
    supplyTemp: Outcome<real>,
    monthlyCost: Outcome<real>,
    rate: Outcome<real>,
    accumulatedConsumption: Outcome<real>)
  {
    function For(f: BtuField): Outcome<real> {
      match f
      case SupplyTemp => supplyTemp
      case MonthlyCost => monthlyCost
      case Rate => rate
      case AccumulatedConsumption => accumulatedConsumption
    }
  }

  /** `refreshAllBTUData`: loading on, the four fetches in source order, loading off. */
  function Refreshed(s: BtuState, rs: BtuResults): BtuState {
    var loading := s.(isLoading := true);
    var fetched :=
      FieldFetched(FieldFetched(FieldFetched(FieldFetched(loading,
        SupplyTemp, rs.supplyTemp),
        MonthlyCost, rs.monthlyCost),
        Rate, rs.rate),
        AccumulatedConsumption, rs.accumulatedConsumption);
    fetched.(isLoading := false)
  }

  /** States `a` and `b` agree on field `f` and on its error key. */
  predicate SameSlice(a: BtuState, b: BtuState, f: BtuField) {
    a.data.Get(f) == b.data.Get(f)
    && (f in a.errors <==> f in b.errors)
    && (f in a.errors ==> a.errors[f] == b.errors[f])
  }

  lemma OtherFetchKeepsSlice(s: BtuState, g: BtuField, result: Outcome<real>, f: BtuField)
    requires g != f
    ensures SameSlice(FieldFetched(s, g, result), s, f)
  {
  }

  lemma SameFetchKeepsSlice(a: BtuState, b: BtuState, f: BtuField, result: Outcome<real>)
    requires SameSlice(a, b, f)
    ensures SameSlice(FieldFetched(a, f, result), FieldFetched(b, f, result), f)
  {
  }

  /** After a refresh each field, and its error key, is what that field's own
      fetch alone would have left: no fetch's outcome affects another field. */
  lemma {:induction false} RefreshedFieldwise(s: BtuState, rs: BtuResults, f: BtuField)
    ensures !Refreshed(s, rs).isLoading
    ensures SameSlice(Refreshed(s, rs), FieldFetched(s, f, rs.For(f)), f)
  {
    var s0 := s.(isLoading := true);
    var s1 := FieldFetched(s0, SupplyTemp, rs.supplyTemp);
    var s2 := FieldFetched(s1, MonthlyCost, rs.monthlyCost);
    var s3 := FieldFetched(s2, Rate, rs.rate);
    var s4 := FieldFetched(s3, AccumulatedConsumption, rs.accumulatedConsumption);
    assert Refreshed(s, rs) == s4.(isLoading := false);
    assert SameSlice(s0, s, f);
    match f {
      case SupplyTemp =>
        SameFetchKeepsSlice(s0, s, f, rs.supplyTemp);
        OtherFetchKeepsSlice(s1, MonthlyCost, rs.monthlyCost, f);
        OtherFetchKeepsSlice(s2, Rate, rs.rate, f);
        OtherFetchKeepsSlice(s3, AccumulatedConsumption, rs.accumulatedConsumption, f);
      case MonthlyCost =>
        OtherFetchKeepsSlice(s0, SupplyTemp, rs.supplyTemp, f);
        SameFetchKeepsSlice(s1, s, f, rs.monthlyCost);
        OtherFetchKeepsSlice(s2, Rate, rs.rate, f);
        OtherFetchKeepsSlice(s3, AccumulatedConsumption, rs.accumulatedConsumption, f);
      case Rate =>
        OtherFetchKeepsSlice(s0, SupplyTemp, rs.supplyTemp, f);
        OtherFetchKeepsSlice(s1, MonthlyCost, rs.monthlyCost, f);
        SameFetchKeepsSlice(s2, s, f, rs.rate);
        OtherFetchKeepsSlice(s3, AccumulatedConsumption, rs.accumulatedConsumption, f);
      case AccumulatedConsumption =>
        OtherFetchKeepsSlice(s0, SupplyTemp, rs.supplyTemp, f);
        OtherFetchKeepsSlice(s1, MonthlyCost, rs.monthlyCost, f);
        OtherFetchKeepsSlice(s2, Rate, rs.rate, f);
        SameFetchKeepsSlice(s3, s, f, rs.accumulatedConsumption);
    }
  }

  /** The refresh does not depend on the order of its fetches: applying them
      in reverse gives the same state. */
  lemma {:induction false} RefreshOrderIrrelevant(s: BtuState, rs: BtuResults)
    ensures Refreshed(s, rs)
         == FieldFetched(FieldFetched(FieldFetched(FieldFetched(s.(isLoading := true),
              AccumulatedConsumption, rs.accumulatedConsumption),
              Rate, rs.rate),
              MonthlyCost, rs.monthlyCost),
              SupplyTemp, rs.supplyTemp).(isLoading := false)
  {
    var s0 := s.(isLoading := true);
    var (a, b, c, d) := (rs.supplyTemp, rs.monthlyCost, rs.rate, rs.accumulatedConsumption);
    // Move AccumulatedConsumption to the front.
    FieldFetchesCommute(FieldFetched(FieldFetched(s0, SupplyTemp, a), MonthlyCost, b), Rate, c, AccumulatedConsumption, d);
    FieldFetchesCommute(FieldFetched(s0, SupplyTemp, a), MonthlyCost, b, AccumulatedConsumption, d);
    FieldFetchesCommute(s0, SupplyTemp, a, AccumulatedConsumption, d);
    var t0 := FieldFetched(s0, AccumulatedConsumption, d);
    // Then Rate to second place.
    FieldFetchesCommute(FieldFetched(t0, SupplyTemp, a), MonthlyCost, b, Rate, c);
    FieldFetchesCommute(t0, SupplyTemp, a, Rate, c);
    var t1 := FieldFetched(t0, Rate, c);
    // Finally swap the remaining two.
    FieldFetchesCommute(t1, SupplyTemp, a, MonthlyCost, b);
  }

  class BtuMeterStore {
    var btuData: BtuData
    var isLoading: bool
    var errors: Errors
    const refreshInterval: real
    /** `intervalRef.current`. */
    var intervalId: Option<nat>
    ghost var calls: seq<Endpoint>

    function State(): BtuState
      reads this
    {
      BtuState(btuData, isLoading, errors)
    }

    constructor(refreshInterval: real := DefaultRefreshInterval)
      ensures State() == Initial && intervalId.None? && calls == []
      ensures this.refreshInterval == refreshInterval
    {
      btuData := BtuData(Null, Null, Null, Null);
      isLoading := false;
      errors := map[];
      this.refreshInterval := refreshInterval;
      intervalId := None;
      calls := [];
    }

    /** Any of `fetchSupplyTemp`, `fetchMonthlyCost`, `fetchRate`,
        `fetchAccumulatedConsumption`, chosen by `f`. */
    method FetchField(f: BtuField, result: Outcome<real>)
      modifies this
      ensures State() == FieldFetched(old(State()), f, result)
      ensures intervalId == old(intervalId)
      ensures calls == old(calls) + [EndpointFor(f)]
    {
      calls := calls + [EndpointFor(f)];
      match result {
        case Ok(d) =>
          btuData := btuData.With(f, Value(d));
          errors := errors[f := ""];
        case Err(message) =>
          errors := errors[f := message];
        case BadData =>
        case Thrown(e) =>
          errors := errors[f := ErrorMessage(e)];
      }
    }

    method RefreshAllBtuData(rs: BtuResults)
      modifies this
      ensures State() == Refreshed(old(State()), rs)
      ensures intervalId == old(intervalId)
      ensures calls == old(calls) + [GetBtuMeterSupplyTemp, GetBtuMonthlyCost, GetBtuRate, GetBtuAccumulatedConsumption]
    {
      isLoading := true;
      ghost var s0 := State();
      FetchField(SupplyTemp, rs.supplyTemp);
      ghost var s1 := State();
      FetchField(MonthlyCost, rs.monthlyCost);
      ghost var s2 := State();
      FetchField(Rate, rs.rate);
      ghost var s3 := State();
      FetchField(AccumulatedConsumption, rs.accumulatedConsumption);
      assert State() == FieldFetched(s3, AccumulatedConsumption, rs.accumulatedConsumption);
      assert s0 == old(State()).(isLoading := true);
      isLoading := false;
    }

    /** The mount effect: one immediate refresh, then one interval when
        `refreshInterval > 0`. Returns whether a cleanup was registered. */
    method Mount(timers: IntervalTimers, rs: BtuResults) returns (hasCleanup: bool)
      requires timers.Valid()
      modifies this, timers
      ensures timers.Valid()
      ensures State() == Refreshed(old(State()), rs)
      ensures calls == old(calls) + [GetBtuMeterSupplyTemp, GetBtuMonthlyCost, GetBtuRate, GetBtuAccumulatedConsumption]
      ensures hasCleanup <==> refreshInterval > 0.0
      ensures hasCleanup ==> intervalId.Some? && intervalId.value !in old(timers.live)
                             && timers.live == old(timers.live)[intervalId.value := refreshInterval]
      ensures !hasCleanup ==> intervalId == old(intervalId) && timers.live == old(timers.live)
    {
      RefreshAllBtuData(rs);
      if refreshInterval > 0.0 {
        var id := timers.SetInterval(refreshInterval);
        intervalId := Some(id);
        hasCleanup := true;
      } else {
        hasCleanup := false;
      }
    }

    /** The effect's cleanup: clear the interval the ref holds. */
    method Unmount(timers: IntervalTimers)
      requires timers.Valid()
      modifies timers
      ensures timers.Valid()
      ensures intervalId.Some? ==> timers.live == old(timers.live) - {intervalId.value}
      ensures intervalId.None? ==> timers.live == old(timers.live)
    {
      if intervalId.Some? {
        timers.ClearInterval(intervalId.value);
      }
    }

    /** The interval's callback, which only runs while it is registered. */
    method OnInterval(timers: IntervalTimers, rs: BtuResults)
      requires intervalId.Some? && intervalId.value in timers.live
      modifies this
      ensures State() == Refreshed(old(State()), rs)
      ensures intervalId == old(intervalId)
      ensures calls == old(calls) + [GetBtuMeterSupplyTemp, GetBtuMonthlyCost, GetBtuRate, GetBtuAccumulatedConsumption]
    {
      RefreshAllBtuData(rs);
    }
  }

  /** Mounting then unmounting leaves no interval behind and issues exactly one
      refresh's worth of calls. */
  method MountThenUnmount(store: BtuMeterStore, timers: IntervalTimers, rs: BtuResults)
    requires timers.Valid()
    modifies store, timers
    ensures timers.Valid() && timers.live == old(timers.live)
    ensures store.State() == Refreshed(old(store.State()), rs)
    ensures store.calls == old(store.calls) + [GetBtuMeterSupplyTemp, GetBtuMonthlyCost, GetBtuRate, GetBtuAccumulatedConsumption]
  {
    ghost var before := timers.live;
    var hasCleanup := store.Mount(timers, rs);
    if hasCleanup {
      store.Unmount(timers);
      ClearAfterSet(before, store.intervalId.value, store.refreshInterval);
    }
  }
}
