/** Unix timestamps, in seconds or in milliseconds, rendered as ISO 8601 strings. */
module SharedDate {
  import opened Wrappers
  import opened JsNumber
  import opened JsDate

  /** Values at or above this are taken to be milliseconds already. */
  const MillisecondThreshold: real := 1000000000000.0

  /** The time value `unixTimestampToIso` builds its `Date` from. */
  function TimestampDate(value: Number): (d: Date)
    ensures value.Finite? && value.value >= MillisecondThreshold ==> d == FromNumber(value)
    ensures value.Finite? && value.value < MillisecondThreshold ==> d == FromNumber(Finite(value.value * 1000.0))
    ensures !value.Finite? ==> d == Invalid
  {
    var milliseconds := if value.Finite? && value.value >= MillisecondThreshold then value else Times(value, 1000.0);
    FromNumber(milliseconds)
  }

  /** `unixTimestampToIso`: None (for `null`) when the value is missing or gives an Invalid Date. */
  function UnixTimestampToIso(value: Option<Number>): (r: Option<string>)
    ensures value.None? ==> r.None?
    ensures value.Some? ==> (r.Some? <==> TimestampDate(value.value).Valid?)
    ensures r.Some? ==> r.value == ToIsoString(TimestampDate(value.value).time)
  {
    if value.None? then None
    else
      var date := TimestampDate(value.value);
      if date.Valid? then Some(ToIsoString(date.time)) else None
  }

  /** Seconds up to the threshold always give a date: the product stays within range. */
  lemma {:induction false} SecondsInRangeAreValid(seconds: real)
    requires -MillisecondThreshold <= seconds < MillisecondThreshold
    ensures UnixTimestampToIso(Some(Finite(seconds))).Some?
  {
  }

  /** Milliseconds and seconds meet at the threshold: a value just below reads as seconds
      and lands far beyond the largest millisecond reading, which stays below 275760. */
  lemma {:induction false} ThresholdIsTheSwitch(ms: real)
    requires MillisecondThreshold <= ms <= MaxTime as real
    ensures UnixTimestampToIso(Some(Finite(ms))).Some?
    ensures TimestampDate(Finite(ms)) == FromNumber(Finite(ms))
  {
  }

  /** NaN and the infinities have no ISO rendering. */
  lemma {:induction false} NonFiniteHasNoIso(value: Number)
    requires !value.Finite?
    ensures UnixTimestampToIso(Some(value)) == None
  {
  }

  /** A timestamp in seconds and the same instant in milliseconds render alike. */
  lemma {:induction false} SecondsAndMillisecondsAgree(seconds: int)
    requires 1000000000 <= seconds < 1000000000000
    ensures UnixTimestampToIso(Some(Finite(seconds as real))) == UnixTimestampToIso(Some(Finite((seconds * 1000) as real)))
  {
    assert (seconds * 1000) as real == seconds as real * 1000.0;
    assert TimestampDate(Finite(seconds as real)) == TimestampDate(Finite((seconds * 1000) as real));
  }

  /** 1758110287 seconds is 2025-09-17T11:58:07.000Z. */
  lemma {:induction false} UnixTimestampOfSeptember2025()
    ensures UnixTimestampToIso(Some(Finite(1758110287.0))) == Some("2025-09-17T11:58:07.000Z")
  {
    assert TimestampDate(Finite(1758110287.0)) == Valid(1758110287000);
    IsoOfSeptember2025();
  }
}
