/** The demo screen's inline temperature fetch and its render choice. Its fetch
    has no `catch` and no `finally`: only a returned result clears the flag. */
module DemoHomeScreen {
  import opened Js
  import opened Transport
  import Metric

  datatype DemoState = DemoState(temp: Nullable<real>, isLoading: bool, error: string)

  /** `useState<number>()` leaves `temp` undefined. */
  const Initial := DemoState(Undefined, false, "")

  function Started(s: DemoState): DemoState {
    s.(isLoading := true, error := "")
  }

  /** After the await: `ok` stores the reading, any other returned result
      records the message and keeps the reading; a throw escapes the async
      function, so nothing after the await runs. */
  function Completed(s: DemoState, result: Outcome<real>): (r: DemoState)
    ensures result.Ok? ==> r == s.(temp := Value(result.data), isLoading := false)
    ensures (result.Err? || result.BadData?) ==> r == s.(error := Metric.FailedTemperature, isLoading := false)
    ensures result.Thrown? ==> r == s
  {
    match result
    case Ok(d) => s.(temp := Value(d), isLoading := false)
    case Thrown(_) => s
    case _ => s.(error := Metric.FailedTemperature, isLoading := false)
  }

  function Fetched(s: DemoState, result: Outcome<real>): DemoState {
    Completed(Started(s), result)
  }

  /** A thrown transport call leaves the spinner up for good (the effect runs
      only once, on mount). */
  lemma ThrowLeavesSpinner(s: DemoState, e: Exception)
    ensures Fetched(s, Thrown(e)).isLoading
    ensures Fetched(s, Thrown(e)).error == ""
  {
  }

  /** Every returned result clears the flag; exactly the non-`ok` ones leave an error. */
  lemma ReturnedResultClearsSpinner(s: DemoState, result: Outcome<real>)
    requires !result.Thrown?
    ensures !Fetched(s, result).isLoading
    ensures Fetched(s, result).error != "" <==> !result.Ok?
    ensures !result.Ok? ==> Fetched(s, result).temp == s.temp
  {
  }

  /** The heading's temperature: `Math.round(temp)` when `temp` is truthy,
      otherwise `--`. Rounding is kept symbolic. */
  datatype Heading = RoundedCelsius(x: real) | DashesCelsius

  function HeadingOf(temp: Nullable<real>): (r: Heading)
    ensures r.DashesCelsius? <==> !TruthyNumber(temp)
    ensures r.RoundedCelsius? ==> r.x == temp.value
  {
    if TruthyNumber(temp) then RoundedCelsius(temp.value) else DashesCelsius
  }

  datatype View = Spinner | ErrorText(message: string) | Cards(heading: Heading)

  /** Spinner first, then a non-empty error, then the cards. */
  function Render(s: DemoState): (r: View)
    ensures r.Spinner? <==> s.isLoading
    ensures r.ErrorText? <==> !s.isLoading && s.error != ""
    ensures r.ErrorText? ==> r.message == s.error
    ensures r.Cards? ==> r.heading == HeadingOf(s.temp)
  {
    if s.isLoading then Spinner
    else if s.error != "" then ErrorText(s.error)
    else Cards(HeadingOf(s.temp))
  }

  /** A reading of exactly zero shows `--`, like a missing one. */
  lemma ZeroReadingShowsDashes(s: DemoState)
    requires !s.isLoading && s.error == "" && s.temp == Value(0.0)
    ensures Render(s) == Cards(DashesCelsius)
  {
  }

  /** From the initial state, the mount fetch renders: the cards with the
      reading on `ok`, the fixed message otherwise, the spinner after a throw. */
  lemma MountFetchRenders(result: Outcome<real>)
    ensures result.Ok? ==> Render(Fetched(Initial, result)) == Cards(HeadingOf(Value(result.data)))
    ensures (result.Err? || result.BadData?) ==> Render(Fetched(Initial, result)) == ErrorText(Metric.FailedTemperature)
    ensures result.Thrown? ==> Render(Fetched(Initial, result)) == Spinner
  {
  }

  class DemoHomeStore {
    var temp: Nullable<real>
    var isLoading: bool
    var error: string
    ghost var calls: seq<Endpoint>

    function State(): DemoState
      reads this
    {
      DemoState(temp, isLoading, error)
    }

    constructor()
      ensures State() == Initial && calls == []
    {
      temp := Undefined;
      isLoading := false;
      error := "";
      calls := [];
    }

    method BeginFetchTemp()
      modifies this
      ensures State() == Started(old(State()))
      ensures calls == old(calls) + [GetTemp]
    {
      isLoading := true;
      error := "";
      calls := calls + [GetTemp];
    }

    method CompleteFetchTemp(result: Outcome<real>)
      modifies this
      ensures State() == Completed(old(State()), result)
      ensures calls == old(calls)
    {
      match result {
        case Thrown(_) =>
          return;
        case Ok(d) =>
          temp := Value(d);
        case _ =>
          error := Metric.FailedTemperature;
      }
      isLoading := false;
    }

    /** The mount effect's fetch. */
    method FetchTemp(result: Outcome<real>)
      modifies this
      ensures State() == Fetched(old(State()), result)
      ensures calls == old(calls) + [GetTemp]
    {
      BeginFetchTemp();
      CompleteFetchTemp(result);
    }
  }
}
