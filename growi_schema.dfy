/** The request body of the Growi backfill endpoint: optional `MM/DD/YYYY` dates and
    optional integer bounds on the page size and the number of pages. */
module GrowiSchema {
  import opened Wrappers
  import opened JsText
  import opened JsNumber
  import opened JsValue
  import opened Zod

  // ---- The date pattern ----

  /** `0[1-9]|1[0-2]`. */
  predicate MonthText(m: string) {
    |m| == 2 && ((m[0] == '0' && '1' <= m[1] <= '9') || (m[0] == '1' && '0' <= m[1] <= '2'))
  }

  /** `0[1-9]|[12]\d|3[01]`. */
  predicate DayText(d: string) {
    |d| == 2 &&
    ((d[0] == '0' && '1' <= d[1] <= '9') || ((d[0] == '1' || d[0] == '2') && IsDigit(d[1])) || (d[0] == '3' && (d[1] == '0' || d[1] == '1')))
  }

  /** The whole string matches `^(0[1-9]|1[0-2])\/(0[1-9]|[12]\d|3[01])\/\d{4}$`; without
      the `m` flag `$` matches only at the end of the input. */
  predicate MatchesMmDdYyyy(s: string) {
    |s| == 10 && MonthText(s[0..2]) && s[2] == '/' && DayText(s[3..5]) && s[5] == '/' && AllDigits(s[6..])
  }

  const MmDdYyyyPattern: string := "/^(0[1-9]|1[0-2])\\/(0[1-9]|[12]\\d|3[01])\\/\\d{4}$/"

  /** An independent description of the same strings: month, day and year written with
      two, two and four digits. */
  function DateText(month: nat, day: nat, year: nat): (s: string)
    requires month < 100 && day < 100 && year < 10000
    ensures |s| == 10
  {
    [DigitChar(month / 10), DigitChar(month % 10), '/', DigitChar(day / 10), DigitChar(day % 10), '/',
     DigitChar(year / 1000), DigitChar(year / 100 % 10), DigitChar(year / 10 % 10), DigitChar(year % 10)]
  }

  function MonthOf(s: string): nat
    requires |s| == 10 && IsDigit(s[0]) && IsDigit(s[1])
  {
    DigitValue(s[0]) * 10 + DigitValue(s[1])
  }

  function DayOf(s: string): nat
    requires |s| == 10 && IsDigit(s[3]) && IsDigit(s[4])
  {
    DigitValue(s[3]) * 10 + DigitValue(s[4])
  }

  function YearOf(s: string): nat
    requires |s| == 10 && AllDigits(s[6..])
  {
    assert IsDigit(s[6..][0]) && IsDigit(s[6..][1]) && IsDigit(s[6..][2]) && IsDigit(s[6..][3]);
    DigitValue(s[6]) * 1000 + DigitValue(s[7]) * 100 + DigitValue(s[8]) * 10 + DigitValue(s[9])
  }

  /** Every month 1..12, day 1..31 and four-digit year is accepted, whatever the
      calendar says. */
  lemma {:induction false} DateTextMatches(month: nat, day: nat, year: nat)
    requires 1 <= month <= 12 && 1 <= day <= 31 && year < 10000
    ensures MatchesMmDdYyyy(DateText(month, day, year))
  {
    var s := DateText(month, day, year);
    assert s[0..2] == [DigitChar(month / 10), DigitChar(month % 10)];
    assert s[3..5] == [DigitChar(day / 10), DigitChar(day % 10)];
    assert s[6..] == [DigitChar(year / 1000), DigitChar(year / 100 % 10), DigitChar(year / 10 % 10), DigitChar(year % 10)];
  }

  /** And nothing else is: a matching string is the text of its own month, day and year,
      each in range. */
  lemma {:induction false} MatchIsDateText(s: string)
    requires MatchesMmDdYyyy(s)
    ensures IsDigit(s[0]) && IsDigit(s[1]) && IsDigit(s[3]) && IsDigit(s[4])
    ensures 1 <= MonthOf(s) <= 12 && 1 <= DayOf(s) <= 31 && YearOf(s) < 10000
    ensures DateText(MonthOf(s), DayOf(s), YearOf(s)) == s
  {
    assert s[0..2][0] == s[0] && s[0..2][1] == s[1] && s[3..5][0] == s[3] && s[3..5][1] == s[4];
    assert IsDigit(s[6..][0]) && IsDigit(s[6..][1]) && IsDigit(s[6..][2]) && IsDigit(s[6..][3]);
    TwoDigits(DigitValue(s[0]), DigitValue(s[1]));
    TwoDigits(DigitValue(s[3]), DigitValue(s[4]));
    FourDigits(DigitValue(s[6]), DigitValue(s[7]), DigitValue(s[8]), DigitValue(s[9]));
  }

  lemma {:induction false} TwoDigits(a: nat, b: nat)
    requires a < 10 && b < 10
    ensures (a * 10 + b) / 10 == a && (a * 10 + b) % 10 == b
  {
  }

  lemma {:induction false} FourDigits(a: nat, b: nat, c: nat, d: nat)
    requires a < 10 && b < 10 && c < 10 && d < 10
    ensures var y := a * 1000 + b * 100 + c * 10 + d;
            y / 1000 == a && y / 100 % 10 == b && y / 10 % 10 == c && y % 10 == d
  {
    var y := a * 1000 + b * 100 + c * 10 + d;
    assert y / 10 == a * 100 + b * 10 + c;
    assert y / 100 == a * 10 + b;
  }

  /** The text determines the date: reading a written date gives it back. */
  lemma {:induction false} DateTextRoundTrip(month: nat, day: nat, year: nat)
    requires 1 <= month <= 12 && 1 <= day <= 31 && year < 10000
    ensures var s := DateText(month, day, year);
            IsDigit(s[0]) && IsDigit(s[1]) && IsDigit(s[3]) && IsDigit(s[4]) && AllDigits(s[6..])
            && MonthOf(s) == month && DayOf(s) == day && YearOf(s) == year
  {
    DateTextMatches(month, day, year);
    var s := DateText(month, day, year);
    var m1, m2, d1, d2 := month / 10, month % 10, day / 10, day % 10;
    var y1, y2, y3, y4 := year / 1000, year / 100 % 10, year / 10 % 10, year % 10;
    SplitTwo(month);
    SplitTwo(day);
    SplitFour(year);
    ValueOfDigitChar(m1);
    ValueOfDigitChar(m2);
    ValueOfDigitChar(d1);
    ValueOfDigitChar(d2);
    ValueOfDigitChar(y1);
    ValueOfDigitChar(y2);
    ValueOfDigitChar(y3);
    ValueOfDigitChar(y4);
    assert MonthOf(s) == m1 * 10 + m2;
    assert DayOf(s) == d1 * 10 + d2;
    assert YearOf(s) == y1 * 1000 + y2 * 100 + y3 * 10 + y4;
  }

  lemma {:induction false} ValueOfDigitChar(d: nat)
    requires d < 10
    ensures DigitValue(DigitChar(d)) == d
  {
  }

  lemma {:induction false} SplitTwo(n: nat)
    requires n < 100
    ensures n / 10 < 10 && n == (n / 10) * 10 + n % 10
  {
  }

  lemma {:induction false} SplitFour(y: nat)
    requires y < 10000
    ensures y / 1000 < 10 && y == (y / 1000) * 1000 + (y / 100 % 10) * 100 + (y / 10 % 10) * 10 + y % 10
  {
    assert y / 100 == (y / 1000) * 10 + y / 100 % 10;
    assert y / 10 == (y / 100) * 10 + y / 10 % 10;
    assert y == (y / 10) * 10 + y % 10;
  }

  /** There is no calendar check: 31 February passes; a thirteenth month, a one-digit
      month and a two-digit year do not. */
  lemma {:induction false} DatePatternExamples()
    ensures MatchesMmDdYyyy("02/31/2024")
    ensures !MatchesMmDdYyyy("13/01/2024")
    ensures !MatchesMmDdYyyy("2/01/2024")
    ensures !MatchesMmDdYyyy("02/01/24")
    ensures !MatchesMmDdYyyy("00/10/2024")
  {
    DateTextMatches(2, 31, 2024);
    assert DateText(2, 31, 2024) == "02/31/2024";
    assert "13/01/2024"[0..2] == "13";
    assert "00/10/2024"[0..2] == "00";
  }

  // ---- The schema ----

  /** `z.string().regex(mmddyyyyRegex)`. */
  function DateSchema(v: Value): (r: Parsed<string>)
    ensures r.Ok? <==> v.Str? && MatchesMmDdYyyy(v.s)
    ensures r.Ok? ==> r.value == v.s
  {
    var s :- ZString(v);
    if MatchesMmDdYyyy(s) then Ok(s) else Fail(InvalidPattern(MmDdYyyyPattern))
  }

  /** A number `z.number().int()` accepts. */
  predicate SafeInteger(v: Value) {
    v.Num? && IsInteger(v.n) && -MaxSafeInteger <= v.n.value.Floor <= MaxSafeInteger
  }

  /** `z.number().int().min(1).max(1000)`. */
  function PerPageSchema(v: Value): (r: Parsed<int>)
    ensures r.Ok? <==> SafeInteger(v) && 1.0 <= v.n.value <= 1000.0
    ensures r.Ok? ==> r.value as real == v.n.value
  {
    var n :- ZInt(v);
    if n < 1 then Fail(TooSmall("number", 1)) else if n > 1000 then Fail(TooBig("number", 1000)) else Ok(n)
  }

  /** `z.number().int().min(1)`. */
  function MaxPagesSchema(v: Value): (r: Parsed<int>)
    ensures r.Ok? <==> SafeInteger(v) && 1.0 <= v.n.value
    ensures r.Ok? ==> r.value as real == v.n.value
  {
    var n :- ZInt(v);
    if n < 1 then Fail(TooSmall("number", 1)) else Ok(n)
  }

  datatype BackfillInput = BackfillInput(startDate: Option<string>, endDate: Option<string>,
                                         perPage: Option<int>, maxPages: Option<int>)

  ghost predicate OptionalField<T>(v: Value, key: string, p: Value -> Parsed<T>) {
    Get(v, key) == Undefined || p(Get(v, key)).Ok?
  }

  /** `growiBackfillSchema`: the fields are checked in order, absent (`undefined`) fields
      are allowed, `null` is not, and unknown keys are dropped. */
  function GrowiBackfillSchema(v: Value): (r: Parsed<BackfillInput>)
    ensures r.Ok? <==>
              && v.Obj?
              && OptionalField(v, "startDate", DateSchema) && OptionalField(v, "endDate", DateSchema)
              && OptionalField(v, "perPage", PerPageSchema) && OptionalField(v, "maxPages", MaxPagesSchema)
    ensures r.Ok? ==>
              && (r.value.startDate.Some? <==> Get(v, "startDate") != Undefined)
              && (r.value.startDate.Some? ==> r.value.startDate.value == Get(v, "startDate").s)
              && (r.value.endDate.Some? <==> Get(v, "endDate") != Undefined)
              && (r.value.endDate.Some? ==> r.value.endDate.value == Get(v, "endDate").s)
              && (r.value.perPage.Some? <==> Get(v, "perPage") != Undefined)
              && (r.value.perPage.Some? ==> r.value.perPage.value as real == Get(v, "perPage").n.value && 1 <= r.value.perPage.value <= 1000)
              && (r.value.maxPages.Some? <==> Get(v, "maxPages") != Undefined)
              && (r.value.maxPages.Some? ==> r.value.maxPages.value as real == Get(v, "maxPages").n.value && 1 <= r.value.maxPages.value)
    ensures r.Err? && v.Obj? && !OptionalField(v, "startDate", DateSchema) ==> r.error.path != [] && r.error.path[0] == Key("startDate")
  {
    var _ :- ZObject(v);
    var startDate :- Field(v, "startDate", x => ZOptional(x, DateSchema));
    var endDate :- Field(v, "endDate", x => ZOptional(x, DateSchema));
    var perPage :- Field(v, "perPage", x => ZOptional(x, PerPageSchema));
    var maxPages :- Field(v, "maxPages", x => ZOptional(x, MaxPagesSchema));
    Ok(BackfillInput(startDate, endDate, perPage, maxPages))
  }

  /** Keys the schema does not name make no difference to what it returns. */
  lemma {:induction false} BackfillIgnoresUnknownKeys(props: map<string, Value>, key: string, x: Value)
    requires key != "startDate" && key != "endDate" && key != "perPage" && key != "maxPages"
    ensures GrowiBackfillSchema(Obj(props[key := x])) == GrowiBackfillSchema(Obj(props))
  {
    var v, w := Obj(props[key := x]), Obj(props);
    assert Get(v, "startDate") == Get(w, "startDate") && Get(v, "endDate") == Get(w, "endDate");
    assert Get(v, "perPage") == Get(w, "perPage") && Get(v, "maxPages") == Get(w, "maxPages");
  }

  /** The bounds at their edges: a page size of 1 and 1000 passes, 0, 1001 and 2.5 do
      not; a page budget of 1 passes and 0 does not. */
  lemma {:induction false} BackfillBounds()
    ensures PerPageSchema(Num(Finite(1.0))).Ok? && PerPageSchema(Num(Finite(1000.0))).Ok?
    ensures PerPageSchema(Num(Finite(0.0))).Err? && PerPageSchema(Num(Finite(1001.0))).Err?
    ensures PerPageSchema(Num(Finite(2.5))).Err?
    ensures MaxPagesSchema(Num(Finite(1.0))).Ok? && MaxPagesSchema(Num(Finite(0.0))).Err?
  {
    assert (2.5).Floor == 2;
  }
}
