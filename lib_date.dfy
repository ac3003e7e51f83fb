/** Conversions from stored timestamps into `Date` values that throw a `RangeError`
    on bad input; the thrown error is the Err case here. */
module LibDate {
  import opened Wrappers
  import opened JsText
  import opened JsNumber
  import opened JsDate

  datatype RangeError = RangeError(message: string)

  /** `unixSecondsToDate`: positive finite seconds whose milliseconds fit a `Date`.
      `render` is `Number#toString` for values that are not integers below 10^21. */
  function UnixSecondsToDate(value: Number, render: real -> string): (r: Result<TimeValue, RangeError>)
    ensures r.Ok? <==> value.Finite? && 0.0 < value.value && value.value * 1000.0 <= MaxTime as real
    ensures r.Ok? ==> r.value as real <= value.value * 1000.0 < r.value as real + 1.0
    ensures r.Err? ==> r.error.message == "Invalid unix timestamp seconds: " + NumberToString(value, render)
  {
    var message := "Invalid unix timestamp seconds: " + NumberToString(value, render);
    if !value.Finite? || value.value <= 0.0 then Err(RangeError(message))
    else
      var parsed := FromNumber(Times(value, 1000.0));
      if parsed.Invalid? then Err(RangeError(message)) else Ok(parsed.time)
  }

  /** `isoToDate`; `parseIso` is date-fns' `parseISO`. */
  function IsoToDate(value: string, parseIso: string -> Date): (r: Result<TimeValue, RangeError>)
    ensures r.Ok? <==> parseIso(value).Valid?
    ensures r.Ok? ==> r.value == parseIso(value).time
    ensures r.Err? ==> r.error.message == "Invalid ISO timestamp: " + value
  {
    var parsed := parseIso(value);
    if parsed.Invalid? then Err(RangeError("Invalid ISO timestamp: " + value)) else Ok(parsed.time)
  }

  /** Whole seconds convert exactly, and the message names integer inputs in decimal. */
  lemma {:induction false} UnixSecondsOfWholeSeconds(seconds: int, render: real -> string)
    requires 0 < seconds && seconds * 1000 <= MaxTime
    ensures UnixSecondsToDate(Finite(seconds as real), render) == Ok(seconds * 1000)
  {
  }

  lemma {:induction false} UnixSecondsRejectsZero(render: real -> string)
    ensures UnixSecondsToDate(Finite(0.0), render) == Err(RangeError("Invalid unix timestamp seconds: 0"))
  {
    assert 0.0.Floor == 0;
    assert NumberToString(Finite(0.0), render) == IntToString(0);
    assert NatToString(0) == [DigitChar(0)] == "0";
    assert UnixSecondsToDate(Finite(0.0), render).error.message == "Invalid unix timestamp seconds: " + "0";
    assert "Invalid unix timestamp seconds: " + "0" == "Invalid unix timestamp seconds: 0";
  }
}
