/** The shared number normaliser: API values that may arrive as a number or as a
    numeric string become a finite number, and everything else becomes absent. */
module SharedNumber {
  import opened Wrappers
  import opened JsText
  import opened JsNumber
  import opened JsValue

  /** `normalizeNumberValue`; None stands for `undefined`. */
  function NormalizeNumberValue(v: Value): (r: Option<real>)
    ensures v.Num? ==> r == (if v.n.Finite? then Some(v.n.value) else None)
    ensures !v.Num? && !v.Str? ==> r == None
    ensures v.Str? ==> (r.Some? <==> !AllWhiteSpace(v.s) && StringToNumber(v.s).Finite?)
    ensures v.Str? && r.Some? ==> r.value == StringToNumber(v.s).value
  {
    match v
    case Num(n) => if n.Finite? then Some(n.value) else None
    case Str(s) =>
      var trimmed := Trim(s);
      if trimmed == [] then None
      else
        var parsed := StringToNumber(trimmed);
        assert parsed == StringToNumber(s) by {
          TrimIdempotent(s);
        }
        if parsed.Finite? then Some(parsed.value) else None
    case _ => None
  }

  /** The value a normalised result stands for again. */
  function Denormalize(r: Option<real>): Value {
    if r.Some? then Num(Finite(r.value)) else Undefined
  }

  /** Normalising is idempotent: a normalised value normalises to itself. */
  lemma {:induction false} NormalizeNumberValueIdempotent(v: Value)
    ensures NormalizeNumberValue(Denormalize(NormalizeNumberValue(v))) == NormalizeNumberValue(v)
  {
  }

  /** A decimal integer string, with any surrounding white space, normalises to its value. */
  lemma {:induction false} NormalizeNumberValueOfDecimal(w1: string, n: nat, w2: string)
    requires AllWhiteSpace(w1) && AllWhiteSpace(w2)
    ensures NormalizeNumberValue(Str(w1 + NatToString(n) + w2)) == Some(n as real)
  {
    StringToNumberOfPaddedNat(w1, n, w2);
    PaddedNatNotBlank(w1, n, w2);
  }

  lemma {:induction false} PaddedNatNotBlank(w1: string, n: nat, w2: string)
    requires AllWhiteSpace(w1) && AllWhiteSpace(w2)
    ensures !AllWhiteSpace(w1 + NatToString(n) + w2)
  {
    TrimIgnoresPadding(w1, NatToString(n), w2);
    TrimOfNat(n);
  }

  /** A blank string is absent, not the 0 that `Number("")` would give. */
  lemma {:induction false} NormalizeNumberValueOfBlank(s: string)
    requires AllWhiteSpace(s)
    ensures NormalizeNumberValue(Str(s)) == None
    ensures StringToNumber(s) == Finite(0.0)
  {
  }

  /** What `normalizeNumberValue` makes of a string, in terms of its trimmed text. */
  lemma {:induction false} NormalizedText(s: string)
    ensures NormalizeNumberValue(Str(s)).None? <==> Trim(s) == [] || !StringToNumber(Trim(s)).Finite?
    ensures NormalizeNumberValue(Str(s)).Some? ==> NormalizeNumberValue(Str(s)).value == StringToNumber(Trim(s)).value
  {
    StringToNumberOfTrimmed(s);
  }
}
