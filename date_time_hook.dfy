/** The date/time hook: fetch `{date, time}`, reformat the date for display, and
    keep the error as `string | null`, which every fetch first resets to null. */
module DateTimeHook {
  import opened Js
  import opened Transport

  datatype DateTime = DateTime(timeZone: string, time: string, date: string)

  /** The payload of an `ok` reply. */
  datatype DateTimeData = DateTimeData(date: string, time: string)

  /** Parsing the `MM-dd-yyyy` date and rendering it with `toLocaleDateString`
      either yields text or throws. Both steps are library code, so the store is
      given the combined step as a function. */
  datatype Formatting = Formatted(text: string) | FormatThrew(exception: Exception)

  datatype DateTimeState = DateTimeState(dateTime: DateTime, loading: bool, error: Option<string>)

  const Initial := DateTimeState(DateTime("", "", ""), false, None)

  const FailedDateTime := "Failed to process date/time data"
  const UnknownError := "An unknown error occurred"

  /** `s.replace(',', '')`: a string pattern replaces its first occurrence only. */
  function RemoveFirstComma(s: string): (r: string)
    ensures ',' !in s ==> r == s
    ensures ',' in s ==> |r| == |s| - 1 && multiset(r) + multiset{','} == multiset(s)
  {
    var i := FirstIndexOf(s, ',');
    if i == |s| then s
    else
      assert s == s[..i] + [s[i]] + s[i + 1..];
      s[..i] + s[i + 1..]
  }

  /** The comma removed is the first one: a comma-free prefix survives and the
      rest after that comma, later commas included, is kept verbatim. */
  lemma RemoveFirstCommaSplits(a: string, b: string)
    requires ',' !in a
    ensures RemoveFirstComma(a + "," + b) == a + b
  {
    FirstIndexOfAfterPrefix(a, ',', b);
    var s := a + "," + b;
    assert s[..|a|] == a;
    assert s[|a| + 1..] == b;
  }

  /** Removing the first comma twice removes the first two commas. */
  lemma RemoveFirstCommaTwice(a: string, b: string, c: string)
    requires ',' !in a && ',' !in b
    ensures RemoveFirstComma(RemoveFirstComma(a + "," + b + "," + c)) == a + b + c
  {
    assert a + "," + b + "," + c == a + "," + (b + "," + c);
    RemoveFirstCommaSplits(a, b + "," + c);
    assert a + (b + "," + c) == (a + b) + "," + c;
    assert ',' !in a + b;
    RemoveFirstCommaSplits(a + b, c);
  }

  /** `err instanceof Error ? err.message : 'An unknown error occurred'`. */
  function CaughtMessage(e: Exception): (r: string)
    ensures e.ErrorObject? ==> r == e.message
    ensures e.NonErrorValue? ==> r == UnknownError
  {
    match e
    case ErrorObject(_, message) => message
    case NonErrorValue(_) => UnknownError
  }

  /** The synchronous start of a fetch: loading on, error reset to null. */
  function Started(s: DateTimeState): DateTimeState {
    s.(loading := true, error := None)
  }

  /** What `dateTime` becomes for an `ok` payload whose date formats to `text`. */
  function Displayed(data: DateTimeData, text: string): DateTime {
    DateTime("PST", data.time, RemoveFirstComma(text))
  }

  /** The code after the await. A format failure is caught by the same handler
      as a transport exception. */
  function Completed(s: DateTimeState, result: Outcome<DateTimeData>, format: string -> Formatting): (r: DateTimeState)
    ensures !r.loading
    ensures result.Ok? && format(result.data.date).Formatted? ==>
              r.dateTime == Displayed(result.data, format(result.data.date).text) && r.error == s.error
    ensures !(result.Ok? && format(result.data.date).Formatted?) ==> r.dateTime == s.dateTime && r.error.Some?
    ensures result.Err? ==> r.error == Some(result.error)
    ensures result.BadData? ==> r.error == Some(FailedDateTime)
    ensures result.Thrown? ==> r.error == Some(CaughtMessage(result.exception))
    ensures result.Ok? && format(result.data.date).FormatThrew? ==>
              r.error == Some(CaughtMessage(format(result.data.date).exception))
  {
    var settled :=
      match result
      case Ok(data) =>
        (match format(data.date)
         case Formatted(text) => s.(dateTime := Displayed(data, text))
         case FormatThrew(e) => s.(error := Some(CaughtMessage(e))))
      case Err(message) => s.(error := Some(message))
      case BadData => s.(error := Some(FailedDateTime))
      case Thrown(e) => s.(error := Some(CaughtMessage(e)));
    settled.(loading := false)
  }

  function Fetched(s: DateTimeState, result: Outcome<DateTimeData>, format: string -> Formatting): DateTimeState {
    Completed(Started(s), result, format)
  }

  /** After any fetch exactly one of two things holds: the date/time was
      replaced and no error is recorded, or an error is recorded and the
      date/time is the one from before. */
  lemma ReplacedOrErrored(s: DateTimeState, result: Outcome<DateTimeData>, format: string -> Formatting)
    ensures var r := Fetched(s, result, format);
            (r.error.None? && result.Ok? && format(result.data.date).Formatted?
             && r.dateTime == Displayed(result.data, format(result.data.date).text))
            || (r.error.Some? && r.dateTime == s.dateTime)
    ensures var r := Fetched(s, result, format);
            r.error.None? <==> (result.Ok? && format(result.data.date).Formatted?)
  {
  }

  class DateTimeStore {
    var dateTime: DateTime
    var dateTimeLoading: bool
    var error: Option<string>
    const localeDate: string -> Formatting
    ghost var calls: seq<Endpoint>

    function State(): DateTimeState
      reads this
    {
      DateTimeState(dateTime, dateTimeLoading, error)
    }

    constructor(localeDate: string -> Formatting)
      ensures State() == Initial && calls == []
      ensures this.localeDate == localeDate
    {
      dateTime := DateTime("", "", "");
      dateTimeLoading := false;
      error := None;
      this.localeDate := localeDate;
      calls := [];
    }

    method BeginFetchDateTime()
      modifies this
      ensures State() == Started(old(State())) && State().loading && State().error.None?
      ensures calls == old(calls) + [GetDateTime]
    {
      dateTimeLoading := true;
      error := None;
      calls := calls + [GetDateTime];
    }

    method CompleteFetchDateTime(result: Outcome<DateTimeData>)
      modifies this
      ensures State() == Completed(old(State()), result, localeDate)
      ensures calls == old(calls)
    {
      match result {
        case Ok(data) =>
          var formatting := localeDate(data.date);
          match formatting {
            case Formatted(text) =>
              var formattedDate := RemoveFirstComma(text);
              dateTime := DateTime("PST", data.time, formattedDate);
            case FormatThrew(e) =>
              error := Some(CaughtMessage(e));
          }
        case Err(message) =>
          error := Some(message);
        case BadData =>
          error := Some(FailedDateTime);
        case Thrown(e) =>
          error := Some(CaughtMessage(e));
      }
      dateTimeLoading := false;
    }

    method FetchDateTime(result: Outcome<DateTimeData>)
      modifies this
      ensures State() == Fetched(old(State()), result, localeDate)
      ensures calls == old(calls) + [GetDateTime]
    {
      BeginFetchDateTime();
      CompleteFetchDateTime(result);
    }
  }
}
