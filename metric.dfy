/** The state machine shared by the single-value hooks (temperature, humidity,
    setpoint, occupancy): a value, a loading flag and an error string. A fetch
    raises the flag, stores the data on an `ok` result, clears the value and
    records a message on any other result or on a throw, and always lowers the
    flag at the end. */
module Metric {
  import opened Js
  import opened Transport

  datatype MetricState<T> = MetricState(value: Nullable<T>, loading: bool, error: string)

  /** The fixed message the temperature, humidity, setpoint and occupancy hooks
      all record for a non-ok result (the humidity and occupancy hooks reuse the
      temperature wording). */
  const FailedTemperature := "Failed to load Temperature data"

  /** The synchronous part of a fetch, before the awaited transport call. */
  function Started<T>(s: MetricState<T>): MetricState<T> {
    s.(loading := true)
  }

  /** Everything after the await: the try/catch branches, then `finally`. */
  function Completed<T>(s: MetricState<T>, result: Outcome<T>, failure: string): (r: MetricState<T>)
    ensures !r.loading
    ensures r.value.Value? <==> result.Ok?
    ensures result.Ok? ==> r.value == Value(result.data) && r.error == s.error
    ensures !result.Ok? ==> r.value == Null
    ensures (result.Err? || result.BadData?) ==> r.error == failure
    ensures result.Thrown? ==> r.error == ErrorMessage(result.exception)
  {
    var settled :=
      match result
      case Ok(d) => s.(value := Value(d))
      case Thrown(e) => s.(error := ErrorMessage(e), value := Null)
      case _ => s.(error := failure, value := Null);
    settled.(loading := false)
  }

  /** A whole fetch. */
  function Fetched<T>(s: MetricState<T>, result: Outcome<T>, failure: string): MetricState<T> {
    Completed(Started(s), result, failure)
  }

  /** Read idempotence: a second fetch with the same outcome changes nothing more. */
  lemma FetchIdempotent<T>(s: MetricState<T>, result: Outcome<T>, failure: string)
    ensures Fetched(Fetched(s, result, failure), result, failure) == Fetched(s, result, failure)
  {
  }

  /** No fetch outcome ever clears a recorded error back to the empty string. */
  lemma ErrorNeverCleared<T>(s: MetricState<T>, result: Outcome<T>, failure: string)
    requires s.error != "" && failure != ""
    ensures Fetched(s, result, failure).error != ""
  {
  }

  /** The outcome alone decides the value a fetch leaves; the earlier value is forgotten. */
  lemma FetchForgetsPreviousValue<T>(s: MetricState<T>, t: MetricState<T>, result: Outcome<T>, failure: string)
    ensures Fetched(s, result, failure).value == Fetched(t, result, failure).value
  {
  }
}
