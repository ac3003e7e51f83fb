/** The parts of the zod validation library the schemas use, as parsers from a value
    to a result or to the FIRST issue zod would report: object properties are checked
    in declaration order and array elements in index order, so the first failing
    property or element (recursively) is the first issue. */
module Zod {
  import opened Wrappers
  import opened JsText
  import opened JsNumber
  import opened JsValue
  import opened JsUrl

  /** One step of an issue path: a property name or an array index. */
  datatype Seg = Key(name: string) | Index(index: nat)

  datatype Code =
    | InvalidType(expected: string, received: string)
    | TooSmall(origin: string, minimum: int)
    | TooBig(origin: string, maximum: int)
    | InvalidFormat(format: string)
    | InvalidPattern(pattern: string)
    | InvalidUnion
    | Custom

  datatype Issue = Issue(path: seq<Seg>, code: Code, message: string)

  type Parsed<T> = Result<T, Issue>

  /** The largest integer `z.number().int()` accepts (`Number.MAX_SAFE_INTEGER`). */
  const MaxSafeInteger: int := 9007199254740991

  /** The library's default English message for an issue code. */
  function DefaultMessage(c: Code): string {
    match c
    case InvalidType(expected, received) => "Invalid input: expected " + expected + ", received " + received
    case TooSmall(origin, minimum) =>
      if origin == "string" then "Too small: expected string to have >=" + IntToString(minimum) + " characters"
      else "Too small: expected " + origin + " to be >=" + IntToString(minimum)
    case TooBig(origin, maximum) =>
      if origin == "string" then "Too big: expected string to have <=" + IntToString(maximum) + " characters"
      else "Too big: expected " + origin + " to be <=" + IntToString(maximum)
    case InvalidFormat(format) => "Invalid " + format
    case InvalidPattern(pattern) => "Invalid string: must match pattern " + pattern
    case InvalidUnion => "Invalid input"
    case Custom => "Invalid input"
  }

  /** An issue at the current position with the default message. */
  function Fail<T>(c: Code): (r: Parsed<T>)
    ensures r.Err? && r.error.path == [] && r.error.code == c
  {
    Err(Issue([], c, DefaultMessage(c)))
  }

  /** An issue at the current position with a message given by the schema. */
  function FailWith<T>(c: Code, message: string): (r: Parsed<T>)
    ensures r.Err? && r.error.path == [] && r.error.message == message
  {
    Err(Issue([], c, message))
  }

  /** Runs a parser one step deeper: an issue's path is prefixed with `seg`. */
  function Under<T>(seg: Seg, r: Parsed<T>): (q: Parsed<T>)
    ensures q.Ok? <==> r.Ok?
    ensures r.Ok? ==> q.value == r.value
    ensures r.Err? ==> q.error == Issue([seg] + r.error.path, r.error.code, r.error.message)
  {
    match r
    case Ok(x) => Ok(x)
    case Err(i) => Err(Issue([seg] + i.path, i.code, i.message))
  }

  /** `issue.path.join('.')`. */
  function PathText(path: seq<Seg>): string {
    Join(seq(|path|, i requires 0 <= i < |path| => SegText(path[i])), ".")
  }

  function SegText(s: Seg): string {
    match s
    case Key(name) => name
    case Index(i) => NatToString(i)
  }

  /** `z.string()`. */
  function ZString(v: Value): (r: Parsed<string>)
    ensures r.Ok? <==> v.Str?
    ensures r.Ok? ==> r.value == v.s
  {
    if v.Str? then Ok(v.s) else Fail(InvalidType("string", TypeName(v)))
  }

  /** `z.string().min(1)`: a non-empty string. */
  function ZNonEmptyString(v: Value): (r: Parsed<string>)
    ensures r.Ok? <==> v.Str? && v.s != []
    ensures r.Ok? ==> r.value == v.s
  {
    var s :- ZString(v);
    if Utf16Length(s) < 1 then Fail(TooSmall("string", 1)) else Ok(s)
  }

  /** `z.number()`: a finite number (NaN and the infinities are refused). */
  function ZNumber(v: Value): (r: Parsed<real>)
    ensures r.Ok? <==> v.Num? && v.n.Finite?
    ensures r.Ok? ==> r.value == v.n.value
  {
    if v.Num? && v.n.Finite? then Ok(v.n.value) else Fail(InvalidType("number", TypeName(v)))
  }

  /** `z.boolean()`. */
  function ZBoolean(v: Value): (r: Parsed<bool>)
    ensures r.Ok? <==> v.Bool?
    ensures r.Ok? ==> r.value == v.b
  {
    if v.Bool? then Ok(v.b) else Fail(InvalidType("boolean", TypeName(v)))
  }

  /** `z.number().int()`: a finite number with no fractional part, within the safe
      integer range. */
  function ZInt(v: Value): (r: Parsed<int>)
    ensures r.Ok? <==> v.Num? && IsInteger(v.n) && -MaxSafeInteger <= v.n.value.Floor <= MaxSafeInteger
    ensures r.Ok? ==> r.value as real == v.n.value
  {
    var x :- ZNumber(v);
    if x != x.Floor as real then Fail(InvalidType("int", "number"))
    else if x.Floor > MaxSafeInteger then Fail(TooBig("number", MaxSafeInteger))
    else if x.Floor < -MaxSafeInteger then Fail(TooSmall("number", -MaxSafeInteger))
    else Ok(x.Floor)
  }

  /** `z.union([z.string(), z.number()])`. */
  datatype StrOrNum = S(s: string) | N(n: real)

  function ZStringOrNumber(v: Value): (r: Parsed<StrOrNum>)
    ensures r.Ok? <==> v.Str? || (v.Num? && v.n.Finite?)
    ensures v.Str? ==> r == Ok(S(v.s))
    ensures v.Num? && v.n.Finite? ==> r == Ok(N(v.n.value))
  {
    if v.Str? then Ok(S(v.s))
    else if v.Num? && v.n.Finite? then Ok(N(v.n.value))
    else Fail(InvalidUnion)
  }

  /** `schema.optional()`: `undefined` is accepted as absent; any other value, `null`
      included, must satisfy the schema. */
  function ZOptional<T>(v: Value, p: Value -> Parsed<T>): (r: Parsed<Option<T>>)
    ensures v == Undefined ==> r == Ok(None)
    ensures v != Undefined ==> (r.Ok? <==> p(v).Ok?)
    ensures v != Undefined && r.Ok? ==> r.value == Some(p(v).value)
  {
    if v == Undefined then Ok(None)
    else
      var x :- p(v);
      Ok(Some(x))
  }

  /** `schema.nullable()`: `null` is accepted as absent, `undefined` is not. */
  function ZNullable<T>(v: Value, p: Value -> Parsed<T>): (r: Parsed<Option<T>>)
    ensures v == Null ==> r == Ok(None)
    ensures v != Null ==> (r.Ok? <==> p(v).Ok?)
    ensures v != Null && r.Ok? ==> r.value == Some(p(v).value)
  {
    if v == Null then Ok(None)
    else
      var x :- p(v);
      Ok(Some(x))
  }

  /** `schema.nullable().optional()`: both `null` and `undefined` are absent. */
  function ZNullish<T>(v: Value, p: Value -> Parsed<T>): (r: Parsed<Option<T>>)
    ensures v == Null || v == Undefined ==> r == Ok(None)
    ensures v != Null && v != Undefined ==> (r.Ok? <==> p(v).Ok?)
    ensures v != Null && v != Undefined && r.Ok? ==> r.value == Some(p(v).value)
  {
    if v == Null || v == Undefined then Ok(None)
    else
      var x :- p(v);
      Ok(Some(x))
  }

  /** `z.object(...)`, `z.looseObject(...)`: the value must be a plain object. */
  function ZObject(v: Value): (r: Parsed<Value>)
    ensures r.Ok? <==> v.Obj?
    ensures r.Ok? ==> r.value == v
  {
    if v.Obj? then Ok(v) else Fail(InvalidType("object", TypeName(v)))
  }

  /** Property `key` of an object, checked by `p`; an issue is reported under the key. */
  function Field<T>(v: Value, key: string, p: Value -> Parsed<T>): (r: Parsed<T>)
    ensures r == Under(Key(key), p(Get(v, key)))
  {
    Under(Key(key), p(Get(v, key)))
  }

  /** `z.array(p)`: every element must satisfy `p`; the first failing index is reported. */
  function ZArray<T>(v: Value, p: Value -> Parsed<T>): (r: Parsed<seq<T>>)
    ensures r.Ok? <==> v.Arr? && forall i :: 0 <= i < |v.items| ==> p(v.items[i]).Ok?
    ensures r.Ok? ==> |r.value| == |v.items| && forall i :: 0 <= i < |v.items| ==> r.value[i] == p(v.items[i]).value
  {
    if v.Arr? then Elements(v.items, 0, p) else Fail(InvalidType("array", TypeName(v)))
  }

  function Elements<T>(items: seq<Value>, from: nat, p: Value -> Parsed<T>): (r: Parsed<seq<T>>)
    requires from <= |items|
    ensures r.Ok? <==> forall i :: from <= i < |items| ==> p(items[i]).Ok?
    ensures r.Ok? ==> |r.value| == |items| - from && forall i :: from <= i < |items| ==> r.value[i - from] == p(items[i]).value
    ensures r.Err? ==> exists i :: from <= i < |items| && p(items[i]).Err? && r.error.path == [Index(i)] + p(items[i]).error.path
    decreases |items| - from
  {
    if from == |items| then Ok([])
    else
      var head :- Under(Index(from), p(items[from]));
      var tail :- Elements(items, from + 1, p);
      Ok([head] + tail)
  }

  /** `z.url({ hostname, protocol })` applied to a string, as zod 4.1 and later check it:
      the string, trimmed, must parse as a URL whose hostname satisfies `host` and whose
      protocol, without its ':', satisfies `protocol` (a plain `z.url()` passes both).
      Every failure is the same `invalid_format` issue, "Invalid URL", and an accepted
      string is passed on trimmed. */
  function ZUrl(s: string, parse: UrlParser, host: string -> bool, protocol: string -> bool): (r: Parsed<string>)
    ensures r.Ok? <==> parse(Trim(s)).Some? && host(parse(Trim(s)).value.hostname) && protocol(Scheme(parse(Trim(s)).value))
    ensures r.Ok? ==> r.value == Trim(s)
    ensures r.Err? ==> r.error == Issue([], InvalidFormat("URL"), "Invalid URL")
  {
    var trimmed := Trim(s);
    var invalid := Issue([], InvalidFormat("URL"), "Invalid URL");
    match parse(trimmed)
    case None => Err(invalid)
    case Some(u) => if host(u.hostname) && protocol(Scheme(u)) then Ok(trimmed) else Err(invalid)
  }
}
