/** JavaScript `Date` values: a time value in milliseconds since the epoch, clipped to
    the range of ECMA-262 section 21.4.1.31 (TimeClip), or an invalid date; and
    `Date.prototype.toISOString` (ECMA-262 section 21.4.1.32, the date time string
    format, with six-digit expanded years outside 0000..9999). */
module JsDate {
  import opened Wrappers
  import opened JsText
  import opened JsNumber

  const MaxTime: int := 8640000000000000
  const MsPerDay: int := 86400000

  /** A time value: at most 100,000,000 days either side of the epoch. */
  type TimeValue = t: int | -MaxTime <= t <= MaxTime

  /** A `Date` object's state: a time value, or NaN for an Invalid Date. */
  datatype Date = Valid(time: TimeValue) | Invalid

  /** `new Date(x)` for a number `x`: non-finite or out-of-range values give an
      Invalid Date, the rest are truncated toward zero. */
  function FromNumber(x: Number): (d: Date)
    ensures d.Valid? <==> x.Finite? && -MaxTime as real <= x.value <= MaxTime as real
    ensures d.Valid? ==> d.time as real <= x.value < d.time as real + 1.0 || d.time as real - 1.0 < x.value <= d.time as real
  {
    match x
    case Finite(v) => if -MaxTime as real <= v <= MaxTime as real then Valid(Truncate(v)) else Invalid
    case _ => Invalid
  }

  /** `x * k` on numbers, for a positive finite `k`. */
  function Times(x: Number, k: real): (r: Number)
    requires k > 0.0
    ensures r.Finite? <==> x.Finite?
  {
    match x
    case Finite(v) => Finite(v * k)
    case _ => x
  }

  /** The calendar date (proleptic Gregorian) of a day number counted from 1970-01-01. */
  datatype Civil = Civil(year: int, month: nat, day: nat)

  /** Day number to year, month and day (H. Hinnant's `civil_from_days`). */
  function CivilFromDays(z: int): (c: Civil)
    ensures 1 <= c.month <= 12 && 1 <= c.day <= 31
  {
    var z1 := z + 719468;
    var era := z1 / 146097;
    var doe := z1 - era * 146097;
    var yoe := (doe - doe / 1460 + doe / 36524 - doe / 146096) / 365;
    var doy := doe - (365 * yoe + yoe / 4 - yoe / 100);
    var mp := (5 * doy + 2) / 153;
    var d := doy - (153 * mp + 2) / 5 + 1;
    var m := if mp < 10 then mp + 3 else mp - 9;
    var y := yoe + era * 400 + (if m <= 2 then 1 else 0);
    Civil(y, m, d)
  }

  /** The decimal digits of `n mod 10^width`, zero-padded to exactly `width` characters. */
  function PadDigits(n: nat, width: nat): (r: string)
    ensures |r| == width
  {
    if width == 0 then [] else PadDigits(n / 10, width - 1) + [DigitChar(n % 10)]
  }

  /** The year field: four digits for 0000..9999, otherwise a sign and six digits. */
  function YearField(y: int): (r: string)
    ensures |r| == 4 || |r| == 7
  {
    if 0 <= y <= 9999 then PadDigits(y, 4)
    else if y > 9999 then "+" + PadDigits(y, 6)
    else "-" + PadDigits(-y, 6)
  }

  /** `Date.prototype.toISOString` of a valid date: `YYYY-MM-DDTHH:mm:ss.sssZ`, UTC. */
  function ToIsoString(t: TimeValue): (r: string)
    ensures |r| == 24 || |r| == 27
    ensures r[|r| - 1] == 'Z' && r[|r| - 14] == 'T'
  {
    IsoFormat(CivilFromDays(t / MsPerDay), t % MsPerDay)
  }

  /** A calendar date and a millisecond of the day in the date time string format. */
  function IsoFormat(c: Civil, ms: nat): (r: string)
    ensures |r| == 24 || |r| == 27
    ensures r[|r| - 1] == 'Z' && r[|r| - 14] == 'T'
  {
    DateField(c) + "T" + TimeField(ms) + "Z"
  }

  /** `YYYY-MM-DD`. */
  function DateField(c: Civil): (r: string)
    ensures |r| == 10 || |r| == 13
  {
    YearField(c.year) + "-" + PadDigits(c.month, 2) + "-" + PadDigits(c.day, 2)
  }

  /** `HH:mm:ss.sss`. */
  function TimeField(ms: nat): (r: string)
    ensures |r| == 12
  {
    PadDigits(ms / 3600000, 2) + ":" + PadDigits(ms / 60000 % 60, 2)
    + ":" + PadDigits(ms / 1000 % 60, 2) + "." + PadDigits(ms % 1000, 3)
  }

  /** 1758110287 seconds after the epoch is 2025-09-17 11:58:07 UTC. */
  lemma {:induction false} IsoOfSeptember2025()
    ensures ToIsoString(1758110287000) == "2025-09-17T11:58:07.000Z"
  {
    CivilOfSeptember2025();
    IsoFormatOfSeptember2025();
  }

  lemma {:induction false} IsoFormatOfSeptember2025()
    ensures IsoFormat(Civil(2025, 9, 17), 43087000) == "2025-09-17T11:58:07.000Z"
  {
    DateFieldOfSeptember2025();
    TimeFieldOfSeptember2025();
  }

  lemma {:induction false} DateFieldOfSeptember2025()
    ensures DateField(Civil(2025, 9, 17)) == "2025-09-17"
  {
    assert YearField(2025) == "2025";
    assert PadDigits(9, 2) == "09";
    assert PadDigits(17, 2) == "17";
  }

  lemma {:induction false} TimeFieldOfSeptember2025()
    ensures TimeField(43087000) == "11:58:07.000"
  {
    assert 43087000 / 3600000 == 11 && 43087000 / 60000 % 60 == 58;
    assert 43087000 / 1000 % 60 == 7 && 43087000 % 1000 == 0;
    assert PadDigits(11, 2) == "11";
    assert PadDigits(58, 2) == "58";
    assert PadDigits(7, 2) == "07";
    assert PadDigits(0, 3) == "000";
  }

  /** The calendar date and time of day of 1758110287000 ms. */
  lemma {:induction false} CivilOfSeptember2025()
    ensures 1758110287000 / MsPerDay == 20348 && 1758110287000 % MsPerDay == 43087000
    ensures CivilFromDays(20348) == Civil(2025, 9, 17)
  {
    assert 739816 / 146097 == 5;
    assert (9331 - 9331 / 1460 + 9331 / 36524 - 9331 / 146096) / 365 == 25;
    assert 9331 - (365 * 25 + 25 / 4 - 25 / 100) == 200;
    assert (5 * 200 + 2) / 153 == 6;
    assert 200 - (153 * 6 + 2) / 5 + 1 == 17;
  }
}
