/** What the two Growi clients share: the `GrowiApiError` they return, the HTTP
    outcome of one request, URL search parameters, and the classification of an
    outcome into a page or an error. */
module GrowiApi {
  import opened Wrappers
  import opened JsText
  import opened JsValue
  import opened JsThrown
  import opened Zod

  datatype GrowiApiError = GrowiApiError(status: int, message: string)

  /** What a `catch` clause in the clients and the sync loops can receive: a
      `GrowiApiError`, or anything else. */
  datatype Thrown = ApiError(error: GrowiApiError) | Raised(cause: Cause)

  /** The outcome of one `fetch`: it rejects, or it yields a status, the body text and
      what `response.json()` gives for that body (a `SyntaxError` when it is not JSON). */
  datatype HttpOutcome =
    | Transport(cause: Cause)
    | Response(status: int, body: string, json: Result<Value, Cause>)

  /** The partner API: the outcome of each request in the order they are made; every
      request after the scripted ones fails in transport with `exhausted`. */
  datatype Script = Script(outcomes: seq<HttpOutcome>, exhausted: Cause)

  function OutcomeAt(s: Script, k: nat): (o: HttpOutcome)
    ensures k >= |s.outcomes| ==> o == Transport(s.exhausted)
  {
    if k < |s.outcomes| then s.outcomes[k] else Transport(s.exhausted)
  }

  /** `response.ok`. */
  predicate IsOk(status: int) {
    200 <= status <= 299
  }

  /** `toErrorMessage`: the body text, or `HTTP <status>` for an empty body. */
  function ToErrorMessage(status: int, body: string): (m: string)
    ensures m != []
    ensures body != [] ==> m == body
    ensures body == [] ==> m == "HTTP " + IntToString(status)
  {
    if Utf16Length(body) > 0 then body else "HTTP " + IntToString(status)
  }

  /** `${firstIssue.path.join('.')}: ${firstIssue.message}`. */
  function ShapeDetail(issue: Issue): string {
    PathText(issue.path) + ": " + issue.message
  }

  /** The clients' `catch`: a `GrowiApiError` is returned as it is; anything else becomes
      status 0 with the error's message, or `fallbackPrefix` and the value's text. */
  function CatchToApiError(t: Thrown, fallbackPrefix: string): (e: GrowiApiError)
    ensures t.ApiError? ==> e == t.error
    ensures t.Raised? ==> e.status == 0
    ensures t.Raised? && t.cause.ErrorInstance? ==> e.message == t.cause.message
    ensures t.Raised? && t.cause.NonError? ==> e.message == fallbackPrefix + t.cause.text
  {
    match t
    case ApiError(error) => error
    case Raised(ErrorInstance(_, message)) => GrowiApiError(0, message)
    case Raised(NonError(text)) => GrowiApiError(0, fallbackPrefix + text)
  }

  /** A successful 2xx outcome whose JSON body passes the schema and the extra `check`
      is the page; everything else is the error the client's `try`/`catch` produces:
      the HTTP status for a non-2xx response, 502 for a bad shape (or whatever `check`
      raises), 0 for a failed `fetch` or a body that is not JSON. */
  function Classify<T>(outcome: HttpOutcome, parse: Value -> Parsed<T>, check: T -> Option<GrowiApiError>,
                       shapePrefix: string, fallbackPrefix: string): (r: Result<T, GrowiApiError>)
    ensures r.Ok? <==> outcome.Response? && IsOk(outcome.status) && outcome.json.Ok?
                       && parse(outcome.json.value).Ok? && check(parse(outcome.json.value).value).None?
    ensures r.Ok? ==> r.value == parse(outcome.json.value).value
    ensures outcome.Transport? ==> r.Err? && r.error.status == 0
    ensures outcome.Response? && !IsOk(outcome.status) ==>
              r == Err(GrowiApiError(outcome.status, ToErrorMessage(outcome.status, outcome.body)))
    ensures outcome.Response? && IsOk(outcome.status) && outcome.json.Err? ==> r.Err? && r.error.status == 0
    ensures outcome.Response? && IsOk(outcome.status) && outcome.json.Ok? && parse(outcome.json.value).Err? ==>
              r == Err(GrowiApiError(502, shapePrefix + " (" + ShapeDetail(parse(outcome.json.value).error) + ")"))
  {
    match outcome
    case Transport(cause) => Err(CatchToApiError(Raised(cause), fallbackPrefix))
    case Response(status, body, json) =>
      if !IsOk(status) then
        Err(CatchToApiError(ApiError(GrowiApiError(status, ToErrorMessage(status, body))), fallbackPrefix))
      else if json.Err? then Err(CatchToApiError(Raised(json.error), fallbackPrefix))
      else
        var parsed := parse(json.value);
        if parsed.Err? then
          Err(CatchToApiError(ApiError(GrowiApiError(502, shapePrefix + " (" + ShapeDetail(parsed.error) + ")")), fallbackPrefix))
        else
          var refused := check(parsed.value);
          if refused.Some? then Err(CatchToApiError(ApiError(refused.value), fallbackPrefix)) else Ok(parsed.value)
  }

  /** URL search parameters in order. */
  type Params = seq<(string, string)>

  /** `URLSearchParams.get`: the first value under `name`. */
  function Lookup(ps: Params, name: string): (r: Option<string>)
    ensures r.None? <==> forall i :: 0 <= i < |ps| ==> ps[i].0 != name
  {
    if ps == [] then None else if ps[0].0 == name then Some(ps[0].1) else Lookup(ps[1..], name)
  }

  /** Looking up in two runs of pairs: the first run wins. */
  lemma {:induction false} LookupConcat(ps: Params, qs: Params, name: string)
    ensures Lookup(ps + qs, name) == (if Lookup(ps, name).Some? then Lookup(ps, name) else Lookup(qs, name))
    decreases |ps|
  {
    if ps != [] {
      assert (ps + qs)[1..] == ps[1..] + qs;
      LookupConcat(ps[1..], qs, name);
    } else {
      assert ps + qs == qs;
    }
  }

  /** `URLSearchParams.set`: the first pair under `name` takes the value, later ones are
      removed, and a new name is appended. */
  function SetParam(ps: Params, name: string, value: string): (r: Params)
    ensures Lookup(r, name) == Some(value)
  {
    if ps == [] then [(name, value)]
    else if ps[0].0 == name then [(name, value)] + RemoveParam(ps[1..], name)
    else [ps[0]] + SetParam(ps[1..], name, value)
  }

  function RemoveParam(ps: Params, name: string): (r: Params)
    ensures forall i :: 0 <= i < |r| ==> r[i].0 != name
  {
    if ps == [] then [] else (if ps[0].0 == name then [] else [ps[0]]) + RemoveParam(ps[1..], name)
  }

  /** Setting one name leaves every other name's value alone. */
  lemma {:induction false} SetParamKeepsOthers(ps: Params, name: string, value: string, other: string)
    requires other != name
    ensures Lookup(SetParam(ps, name, value), other) == Lookup(ps, other)
  {
    if ps != [] {
      if ps[0].0 == name {
        RemoveParamKeepsOthers(ps[1..], name, other);
      } else if ps[0].0 != other {
        SetParamKeepsOthers(ps[1..], name, value, other);
      }
    }
  }

  lemma {:induction false} RemoveParamKeepsOthers(ps: Params, name: string, other: string)
    requires other != name
    ensures Lookup(RemoveParam(ps, name), other) == Lookup(ps, other)
  {
    if ps != [] {
      RemoveParamKeepsOthers(ps[1..], name, other);
      var rest := RemoveParam(ps[1..], name);
      if ps[0].0 != name {
        assert RemoveParam(ps, name) == [ps[0]] + rest;
        assert ([ps[0]] + rest)[1..] == rest;
      } else {
        assert RemoveParam(ps, name) == rest;
      }
    }
  }

  /** `searchParams.set(name, value)` for each pair in turn. */
  function SetAll(ps: Params, pairs: Params): Params
    decreases |pairs|
  {
    if pairs == [] then ps else SetAll(SetParam(ps, pairs[0].0, pairs[0].1), pairs[1..])
  }

  /** No two pairs share a name. */
  predicate DistinctNames(ps: Params)
    decreases |ps|
  {
    ps == [] || (Absent(ps[1..], ps[0].0) && DistinctNames(ps[1..]))
  }

  /** No pair of `ps` is under `name`. */
  predicate Absent(ps: Params, name: string)
    decreases |ps|
  {
    ps == [] || (ps[0].0 != name && Absent(ps[1..], name))
  }

  /** No name of `pairs` is already in `ps`. */
  predicate AllAbsent(ps: Params, pairs: Params)
    decreases |pairs|
  {
    pairs == [] || (Absent(ps, pairs[0].0) && AllAbsent(ps, pairs[1..]))
  }

  lemma {:induction false} NothingAbsentFromEmpty(pairs: Params)
    ensures AllAbsent([], pairs)
    decreases |pairs|
  {
    if pairs != [] {
      NothingAbsentFromEmpty(pairs[1..]);
    }
  }

  lemma {:induction false} AbsentOf(ps: Params, name: string)
    requires forall i :: 0 <= i < |ps| ==> ps[i].0 != name
    ensures Absent(ps, name)
    decreases |ps|
  {
    if ps != [] {
      assert forall i :: 0 <= i < |ps[1..]| ==> ps[1..][i] == ps[i + 1];
      AbsentOf(ps[1..], name);
    }
  }

  /** Setting names that are distinct and not yet present appends the pairs in order. */
  lemma {:induction false} SetAllAppends(ps: Params, pairs: Params)
    requires DistinctNames(pairs) && AllAbsent(ps, pairs)
    ensures SetAll(ps, pairs) == ps + pairs
    decreases |pairs|
  {
    if pairs != [] {
      SetAllStep(ps, pairs);
      AbsentRest(ps, pairs[0], pairs[1..]);
      SetAllAppends(ps + [pairs[0]], pairs[1..]);
      ConcatStep(ps, pairs);
    }
  }

  /** The first pair of a name not yet present is appended. */
  lemma {:induction false} SetAllStep(ps: Params, pairs: Params)
    requires pairs != [] && Absent(ps, pairs[0].0)
    ensures SetAll(ps, pairs) == SetAll(ps + [pairs[0]], pairs[1..])
  {
    SetParamAppends(ps, pairs[0].0, pairs[0].1);
  }

  lemma {:induction false} ConcatStep(ps: Params, pairs: Params)
    requires pairs != []
    ensures (ps + [pairs[0]]) + pairs[1..] == ps + pairs
  {
  }

  /** Appending a pair whose name is not among `rest` keeps `rest` absent. */
  lemma {:induction false} AbsentRest(ps: Params, p: (string, string), rest: Params)
    requires AllAbsent(ps, rest) && Absent(rest, p.0)
    ensures AllAbsent(ps + [p], rest)
    decreases |rest|
  {
    if rest != [] {
      AbsentAppend(ps, p, rest[0].0);
      AbsentRest(ps, p, rest[1..]);
    }
  }

  lemma {:induction false} AbsentAppend(ps: Params, p: (string, string), name: string)
    requires Absent(ps, name) && p.0 != name
    ensures Absent(ps + [p], name)
    decreases |ps|
  {
    if ps != [] {
      AbsentAppend(ps[1..], p, name);
      assert (ps + [p])[1..] == ps[1..] + [p];
    }
  }

  /** `searchParams.set` of a name not yet present appends the pair. */
  lemma {:induction false} SetParamAppends(ps: Params, name: string, value: string)
    requires Absent(ps, name)
    ensures SetParam(ps, name, value) == ps + [(name, value)]
  {
    if ps != [] {
      SetParamAppends(ps[1..], name, value);
      assert ps == [ps[0]] + ps[1..];
    }
  }

  /** One request: the resolved origin and path, the search parameters and the headers. */
  datatype Request = Request(origin: string, path: string, query: Params, headers: Params)
}
