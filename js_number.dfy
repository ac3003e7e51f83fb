/** JavaScript numbers and the string-to-number conversions the core uses: `Number(s)`
    (ECMA-262 section 7.1.4.1.1, StringToNumber), `Number.parseFloat`, `Number.isFinite`
    and `Math.round`. A finite number is an exact real: binary rounding, overflow to
    Infinity and the sign of zero are not modelled. */
module JsNumber {
  import opened Wrappers
  import opened JsText

  datatype Number = Finite(value: real) | NaN | PosInfinity | NegInfinity

  /** `Number.isFinite(x)` for a value known to be a number. */
  predicate IsFinite(x: Number) {
    x.Finite?
  }

  /** A finite number with no fractional part (`Number.isInteger`). */
  predicate IsInteger(x: Number) {
    x.Finite? && x.value == x.value.Floor as real
  }

  function Pow10(n: nat): (p: nat)
    ensures p >= 1
  {
    if n == 0 then 1 else 10 * Pow10(n - 1)
  }

  /** `m` times ten to the power `e`. */
  function Scale(m: real, e: int): real {
    if e >= 0 then m * Pow10(e) as real else m / Pow10(-e) as real
  }

  /** The length of the run of decimal digits that starts at `i`. */
  function DigitRun(s: string, i: nat): (n: nat)
    requires i <= |s|
    ensures i + n <= |s|
    ensures AllDigits(s[i..i + n])
    ensures i + n == |s| || !IsDigit(s[i + n])
    decreases |s| - i
  {
    if i < |s| && IsDigit(s[i]) then
      var n := 1 + DigitRun(s, i + 1);
      assert s[i..i + n] == [s[i]] + s[i + 1..i + n];
      n
    else 0
  }

  /** An exponent part (`e`/`E`, an optional sign, at least one digit) at `i`:
      the exponent and the number of characters it takes, or (0, 0) when there is none. */
  function ScanExponent(s: string, i: nat): (r: (int, nat))
    requires i <= |s|
    ensures i + r.1 <= |s|
  {
    if i < |s| && (s[i] == 'e' || s[i] == 'E') then
      var signLen := if i + 1 < |s| && (s[i + 1] == '+' || s[i + 1] == '-') then 1 else 0;
      var n := DigitRun(s, i + 1 + signLen);
      if n == 0 then (0, 0)
      else
        var v: int := DecimalValue(s[i + 1 + signLen..i + 1 + signLen + n]);
        (if signLen == 1 && s[i + 1] == '-' then -v else v, 1 + signLen + n)
    else (0, 0)
  }

  /** A scanned numeric literal: its value and the number of characters it takes. */
  datatype Scan = Scan(value: Number, len: nat)

  /** The value of the digits `whole.fraction`, `fraction` having `digits` digits. */
  function Mantissa(whole: nat, fraction: nat, digits: nat): real {
    whole as real + fraction as real / Pow10(digits) as real
  }

  /** The longest StrUnsignedDecimalLiteral other than `Infinity` that starts at `i`
      (`12`, `12.`, `12.5`, `.5`, each with an optional exponent part). */
  function ScanUnsignedDecimal(s: string, i: nat): (r: Option<Scan>)
    requires i <= |s|
    ensures r.Some? ==> r.value.value.Finite? && 0 < r.value.len && i + r.value.len <= |s|
    ensures r.Some? <==> (i < |s| && IsDigit(s[i])) || (i + 1 < |s| && s[i] == '.' && IsDigit(s[i + 1]))
  {
    var a := DigitRun(s, i);
    var hasDot := i + a < |s| && s[i + a] == '.';
    var b := if hasDot then DigitRun(s, i + a + 1) else 0;
    if a == 0 && b == 0 then None
    else
      var end := if hasDot then i + a + 1 + b else i + a;
      var whole := DecimalValue(s[i..i + a]);
      var fraction := if hasDot then DecimalValue(s[i + a + 1..i + a + 1 + b]) else 0;
      var exponent := ScanExponent(s, end);
      Some(Scan(Finite(Scale(Mantissa(whole, fraction, b), exponent.0)), end - i + exponent.1))
  }

  /** The longest StrDecimalLiteral (an optional sign, then `Infinity` or an unsigned
      decimal literal) at the start of `s`. */
  function ScanDecimal(s: string): (r: Option<Scan>)
    ensures r.Some? ==> 0 < r.value.len <= |s|
  {
    var signLen := if |s| > 0 && (s[0] == '+' || s[0] == '-') then 1 else 0;
    var negative := signLen == 1 && s[0] == '-';
    if StartsWith(s[signLen..], "Infinity") then
      Some(Scan(if negative then NegInfinity else PosInfinity, signLen + 8))
    else
      match ScanUnsignedDecimal(s, signLen)
      case None => None
      case Some(sc) =>
        Some(Scan(if negative then Finite(-sc.value.value) else sc.value, signLen + sc.len))
  }

  /** The value of character `c` as a digit in base `radix` (2, 8 or 16). */
  function RadixDigit(c: char, radix: nat): Option<nat> {
    var d :=
      if '0' <= c <= '9' then c as int - '0' as int
      else if 'a' <= c <= 'f' then c as int - 'a' as int + 10
      else if 'A' <= c <= 'F' then c as int - 'A' as int + 10
      else 16;
    if d < radix then Some(d) else None
  }

  /** The value of the digits `s` in base `radix`, or None when one is not a digit. */
  function RadixValue(s: string, radix: nat): Option<nat> {
    if s == [] then Some(0)
    else
      match (RadixValue(s[..|s| - 1], radix), RadixDigit(s[|s| - 1], radix))
      case (Some(v), Some(d)) => Some(v * radix + d)
      case _ => None
  }

  /** The base a letter after a leading `0` announces: `x` 16, `o` 8, `b` 2, either case. */
  function RadixMarker(c: char): Option<nat> {
    if c == 'x' || c == 'X' then Some(16)
    else if c == 'o' || c == 'O' then Some(8)
    else if c == 'b' || c == 'B' then Some(2)
    else None
  }

  /** A character that would extend a run of digits into a longer decimal literal. */
  predicate ExtendsLiteral(c: char) {
    IsDigit(c) || c == '.' || c == 'e' || c == 'E'
  }

  /** A StrNonDecimalIntegerLiteral (`0x1F`, `0o17`, `0b101`), or None when `s` does not
      start with one of those prefixes. Some(NaN) when the prefix is present but the
      rest is not a non-empty run of digits of that base. */
  function NonDecimal(s: string): Option<Number> {
    if |s| >= 2 && s[0] == '0' && RadixMarker(s[1]).Some? then
      var radix := RadixMarker(s[1]).value;
      var digits := s[2..];
      match RadixValue(digits, radix)
      case Some(v) => Some(if digits == [] then NaN else Finite(v as real))
      case None => Some(NaN)
    else None
  }

  /** `Number(s)`: white space around the literal is ignored, the empty string is 0,
      and anything other than one whole numeric literal is NaN. */
  function StringToNumber(s: string): (r: Number) {
    TrimmedToNumber(Trim(s))
  }

  /** `Number` trims its argument itself. */
  lemma {:induction false} StringToNumberOfTrimmed(s: string)
    ensures StringToNumber(Trim(s)) == StringToNumber(s)
  {
    TrimIdempotent(s);
  }

  /** The literal `Number` reads once white space is gone. */
  function TrimmedToNumber(t: string): (r: Number) {
    if t == [] then Finite(0.0)
    else
      match NonDecimal(t)
      case Some(v) => v
      case None =>
        match ScanDecimal(t)
        case Some(sc) => if sc.len == |t| then sc.value else NaN
        case None => NaN
  }

  /** `Number.parseFloat(s)`: leading white space is skipped and the longest decimal
      literal prefix is read; NaN when there is none. Hexadecimal is not recognised. */
  function ParseFloat(s: string): (r: Number)
    ensures r == NaN <==> ScanDecimal(TrimStart(s)).None?
  {
    match ScanDecimal(TrimStart(s))
    case Some(sc) => sc.value
    case None => NaN
  }

  /** `Math.round` of a finite value: the nearest integer, halves rounded up. */
  function Round(x: real): (r: int)
    ensures x - 0.5 < r as real <= x + 0.5
  {
    (x + 0.5).Floor
  }

  /** Truncation toward zero, as in ECMA-262's ToIntegerOrInfinity. */
  function Truncate(x: real): (r: int)
    ensures r as real <= x < r as real + 1.0 || r as real - 1.0 < x <= r as real
    ensures x >= 0.0 ==> 0 <= r
    ensures x <= 0.0 ==> r <= 0
  {
    if x >= 0.0 then x.Floor else -((-x).Floor)
  }

  /** A decimal digit string is read back as its value by the digit scanner. */
  lemma {:induction false} DigitRunOfDigits(s: string)
    requires AllDigits(s)
    ensures DigitRun(s, 0) == |s|
  {
    DigitRunFrom(s, 0);
  }

  lemma {:induction false} DigitRunFrom(s: string, i: nat)
    requires i <= |s| && AllDigits(s)
    ensures DigitRun(s, i) == |s| - i
    decreases |s| - i
  {
    if i < |s| {
      DigitRunFrom(s, i + 1);
    }
  }

  /** A run of digits followed by a character that cannot continue a decimal literal
      scans as that integer. */
  lemma {:induction false} ScanUnsignedOfInteger(s: string, a: nat)
    requires 0 < a <= |s| && DigitRun(s, 0) == a
    requires a == |s| || !ExtendsLiteral(s[a])
    ensures ScanUnsignedDecimal(s, 0) == Some(Scan(Finite(DecimalValue(s[0..a]) as real), a))
  {
    assert !(a < |s| && s[a] == '.');
    assert ScanExponent(s, a) == (0, 0);
    var whole := DecimalValue(s[0..a]);
    assert Mantissa(whole, 0, 0) == whole as real;
    assert Scale(whole as real, 0) == whole as real;
  }

  /** The decimal scanner reads a digit string followed by a non-literal character as
      that integer. */
  lemma {:induction false} ScanDecimalOfInteger(d: string, tail: string)
    requires d != [] && AllDigits(d)
    requires tail == [] || !ExtendsLiteral(tail[0])
    ensures ScanDecimal(d + tail) == Some(Scan(Finite(DecimalValue(d) as real), |d|))
  {
    var s := d + tail;
    assert s[0] == d[0];
    ScanDecimalOfDigitLead(s);
    DigitRunOfDigits(d);
    DigitRunPrefix(d, tail);
    if |d| < |s| {
      assert s[|d|] == tail[0];
    }
    ScanUnsignedOfInteger(s, |d|);
    assert s[0..|d|] == d;
  }

  /** A literal that starts with a digit has no sign and is not `Infinity`. */
  lemma {:induction false} ScanDecimalOfDigitLead(s: string)
    requires s != [] && IsDigit(s[0])
    ensures ScanDecimal(s) == ScanUnsignedDecimal(s, 0)
  {
    assert s[0..] == s;
    if |s| >= 8 {
      assert s[..8][0] == s[0];
    }
    assert !StartsWith(s, "Infinity");
  }

  /** `Number` applied to the decimal rendering of a non-negative integer gives it back:
      the partner of `NatToString`. */
  lemma {:induction false} StringToNumberOfNat(n: nat)
    ensures StringToNumber(NatToString(n)) == Finite(n as real)
  {
    TrimOfNat(n);
    NonDecimalOfNat(n);
    ScanDecimalOfNat(n);
  }

  lemma {:induction false} TrimOfNat(n: nat)
    ensures Trim(NatToString(n)) == NatToString(n)
  {
    var s := NatToString(n);
    assert Trimmed(s);
    TrimOfTrimmed(s);
  }

  /** A rendering has no radix prefix: only `0` itself starts with `0`. */
  lemma {:induction false} NonDecimalOfNat(n: nat)
    ensures NonDecimal(NatToString(n)) == None
  {
    var s := NatToString(n);
    assert |s| >= 2 ==> s[0] != '0';
  }

  lemma {:induction false} ScanDecimalOfNat(n: nat)
    ensures ScanDecimal(NatToString(n)) == Some(Scan(Finite(n as real), |NatToString(n)|))
  {
    var s := NatToString(n);
    ScanDecimalOfInteger(s, []);
    assert s + [] == s;
    DecimalValueOfNatToString(n);
  }

  /** A decimal integer surrounded by white space still converts to its value. */
  lemma {:induction false} StringToNumberOfPaddedNat(w1: string, n: nat, w2: string)
    requires AllWhiteSpace(w1) && AllWhiteSpace(w2)
    ensures StringToNumber(w1 + NatToString(n) + w2) == Finite(n as real)
  {
    var s := NatToString(n);
    TrimIgnoresPadding(w1, s, w2);
    StringToNumberOfNat(n);
    TrimOfTrimmed(s);
  }

  /** `parseFloat` reads a decimal prefix and ignores what follows it. */
  lemma {:induction false} ParseFloatPrefix(n: nat, tail: string)
    requires tail == [] || !ExtendsLiteral(tail[0])
    ensures ParseFloat(NatToString(n) + tail) == Finite(n as real)
  {
    var d := NatToString(n);
    TrimStartOfNat(n, tail);
    ScanDecimalOfInteger(d, tail);
    DecimalValueOfNatToString(n);
  }

  lemma {:induction false} TrimStartOfNat(n: nat, tail: string)
    ensures TrimStart(NatToString(n) + tail) == NatToString(n) + tail
  {
    var d := NatToString(n);
    assert (d + tail)[0] == d[0];
  }

  lemma {:induction false} DigitRunPrefix(d: string, tail: string)
    requires AllDigits(d) && DigitRun(d, 0) == |d|
    requires tail == [] || !IsDigit(tail[0])
    ensures DigitRun(d + tail, 0) == |d|
  {
    var s := d + tail;
    assert AllDigits(s[0..|d|]) by {
      assert s[0..|d|] == d;
    }
    DigitRunAtLeast(s, 0, |d|);
    if |d| < |s| {
      assert s[|d|] == tail[0];
    }
  }

  /** The digit scanner runs at least as far as a known digit run. */
  lemma {:induction false} DigitRunAtLeast(s: string, i: nat, j: nat)
    requires i <= j <= |s| && AllDigits(s[i..j])
    requires j == |s| || !IsDigit(s[j])
    ensures DigitRun(s, i) == j - i
    decreases j - i
  {
    if i < j {
      assert IsDigit(s[i]) by {
        assert s[i] == s[i..j][0];
      }
      assert s[i + 1..j] == s[i..j][1..];
      DigitRunAtLeast(s, i + 1, j);
    }
  }

  /** `Number.prototype.toString()` / `String(x)`. Integers below 10^21 print as plain
      decimals; every other finite value goes through `fraction`, which stands for the
      host's shortest round-trip formatting. */
  function NumberToString(x: Number, fraction: real -> string): (r: string)
    ensures x.Finite? && IsInteger(x) && -1e21 < x.value < 1e21 ==> r == IntToString(x.value.Floor)
  {
    match x
    case NaN => "NaN"
    case PosInfinity => "Infinity"
    case NegInfinity => "-Infinity"
    case Finite(v) => if v == v.Floor as real && -1e21 < v < 1e21 then IntToString(v.Floor) else fraction(v)
  }
}
