/** The shared trimming preprocessors and the two string schemas built on them. */
module SharedString {
  import opened Wrappers
  import opened JsText
  import opened JsValue
  import opened Zod

  /** `normalizeTrimmedString`: strings are trimmed, other values pass through. */
  function NormalizeTrimmedString(v: Value): (r: Value)
    ensures v.Str? ==> r == Str(Trim(v.s))
    ensures !v.Str? ==> r == v
  {
    if v.Str? then Str(Trim(v.s)) else v
  }

  /** `normalizeOptionalTrimmedString`: a blank string becomes `undefined`, other strings
      are trimmed, other values pass through. */
  function NormalizeOptionalTrimmedString(v: Value): (r: Value)
    ensures !v.Str? ==> r == v
    ensures v.Str? && AllWhiteSpace(v.s) ==> r == Undefined
    ensures v.Str? && !AllWhiteSpace(v.s) ==> r == Str(Trim(v.s)) && Trim(v.s) != []
  {
    if !v.Str? then v
    else
      var trimmed := Trim(v.s);
      if |trimmed| > 0 then Str(trimmed) else Undefined
  }

  /** A string that comes out of either normaliser has no surrounding white space. */
  lemma {:induction false} NormalizedStringsAreTrimmed(v: Value)
    ensures NormalizeTrimmedString(v).Str? && v.Str? ==> Trimmed(NormalizeTrimmedString(v).s)
    ensures NormalizeOptionalTrimmedString(v).Str? && v.Str? ==> Trimmed(NormalizeOptionalTrimmedString(v).s)
  {
  }

  /** Both normalisers are idempotent. */
  lemma {:induction false} NormalizeTrimmedStringIdempotent(v: Value)
    ensures NormalizeTrimmedString(NormalizeTrimmedString(v)) == NormalizeTrimmedString(v)
  {
    if v.Str? {
      TrimIdempotent(v.s);
    }
  }

  lemma {:induction false} NormalizeOptionalTrimmedStringIdempotent(v: Value)
    ensures NormalizeOptionalTrimmedString(NormalizeOptionalTrimmedString(v)) == NormalizeOptionalTrimmedString(v)
  {
    if v.Str? && !AllWhiteSpace(v.s) {
      TrimIdempotent(v.s);
    }
  }

  /** `trimmedStringSchema`: a string, returned trimmed; anything else is refused. */
  function TrimmedStringSchema(v: Value): (r: Parsed<string>)
    ensures r.Ok? <==> v.Str?
    ensures r.Ok? ==> r.value == Trim(v.s)
  {
    ZString(NormalizeTrimmedString(v))
  }

  /** `optionalTrimmedStringSchema`: absent or blank is None, a string is returned
      trimmed and non-empty, and any other value is refused (`null` included). */
  function OptionalTrimmedStringSchema(v: Value): (r: Parsed<Option<string>>)
    ensures r.Ok? <==> v == Undefined || v.Str?
    ensures r.Ok? && r.value.None? <==> v == Undefined || (v.Str? && AllWhiteSpace(v.s))
    ensures r.Ok? && r.value.Some? ==> v.Str? && r.value.value == Trim(v.s) && r.value.value != []
  {
    ZOptional(NormalizeOptionalTrimmedString(v), ZString)
  }
}
