/** The retry rule the design of the two Growi syncs describes, beside the ones their
    code has. A failed page fetch is a transport failure, an upstream status or a shape
    error. A transport failure is always retried; a status only when it is 429, 5xx, or
    a 422 reporting a request timeout; a shape error never, since asking again cannot
    mend a malformed response. The code cannot follow this rule: both clients report a
    shape error as a 502, the status of a server error. */
module GrowiRetry {
  import opened Wrappers
  import opened JsText
  import opened JsValue
  import opened Zod
  import opened GrowiApi
  import opened GrowiPrivateClient
  import opened GrowiPublicClient
  import GrowiSync
  import GrowiPublicSync

  datatype FailureKind = TransportFailure | StatusFailure | ShapeFailure

  /** The error a client reports, tagged with what failed. */
  datatype Failure = Failure(error: GrowiApiError, kind: FailureKind)

  /** `Classify` with its error tagged: a failed `fetch` is a transport failure, a
      non-2xx response a status failure, and a 2xx response the client rejects (a body
      that is not JSON, of the wrong shape, or refused by `check`) a shape failure. */
  function ClassifyFailure<T>(outcome: HttpOutcome, parse: Value -> Parsed<T>, check: T -> Option<GrowiApiError>,
                              shapePrefix: string, fallbackPrefix: string): (r: Result<T, Failure>)
    ensures var c := Classify(outcome, parse, check, shapePrefix, fallbackPrefix);
            && (r.Ok? <==> c.Ok?)
            && (r.Ok? ==> r.value == c.value)
            && (r.Err? ==> r.error.error == c.error)
    ensures r.Err? ==> (r.error.kind == TransportFailure <==> outcome.Transport?)
    ensures r.Err? ==> (r.error.kind == ShapeFailure <==> outcome.Response? && IsOk(outcome.status))
  {
    match Classify(outcome, parse, check, shapePrefix, fallbackPrefix)
    case Ok(x) => Ok(x)
    case Err(e) =>
      var kind := if outcome.Transport? then TransportFailure else if IsOk(outcome.status) then ShapeFailure else StatusFailure;
      Err(Failure(e, kind))
  }

  /** The design's retry predicate, one for both syncs. */
  predicate IntendedRetryable(f: Failure) {
    match f.kind
    case TransportFailure => true
    case ShapeFailure => false
    case StatusFailure =>
      || f.error.status == 429 || f.error.status >= 500
      || (f.error.status == 422 && Contains(LowerAscii(f.error.message), "request timeout"))
  }

  /** What the predicate decides for the cases the design names. */
  lemma {:induction false} IntendedPolicy(message: string)
    ensures IntendedRetryable(Failure(GrowiApiError(0, message), TransportFailure))
    ensures IntendedRetryable(Failure(GrowiApiError(429, message), StatusFailure))
    ensures IntendedRetryable(Failure(GrowiApiError(502, message), StatusFailure))
    ensures !IntendedRetryable(Failure(GrowiApiError(502, message), ShapeFailure))
    ensures !IntendedRetryable(Failure(GrowiApiError(404, message), StatusFailure))
    ensures IntendedRetryable(Failure(GrowiApiError(422, "Request Timeout"), StatusFailure))
  {
    assert LowerAscii("Request Timeout") == "request timeout";
    assert OccursAt("request timeout", "request timeout", 0);
  }

  /** A retried fetch under the design's predicate, at most `attempts` calls, sleeping
      `delay(k)` milliseconds after the `k`-th failed one; the fetcher's `k`-th call
      gives `fetch(k)`. */
  function RetryIntended<T>(fetch: nat -> Result<T, Failure>, attempts: nat, delay: nat -> nat, pos: nat, attempt: nat)
    : (f: GrowiSync.Fetched<T>)
    requires 1 <= attempt <= attempts
    ensures pos < f.next
    decreases attempts - attempt
  {
    var r := fetch(pos);
    if r.Ok? then GrowiSync.Fetched(Ok(r.value), pos + 1, [])
    else if !IntendedRetryable(r.error) || attempt >= attempts then GrowiSync.Fetched(Err(r.error.error), pos + 1, [])
    else
      var rest := RetryIntended(fetch, attempts, delay, pos + 1, attempt + 1);
      GrowiSync.Fetched(rest.result, rest.next, [delay(attempt)] + rest.sleeps)
  }

  /** Every call before the last one failed in a way the design retries, so never with
      a shape error. */
  lemma {:induction false} RetryIntendedRetriedOnlyRetryable<T>(fetch: nat -> Result<T, Failure>, attempts: nat, delay: nat -> nat,
                                                               pos: nat, attempt: nat, j: nat)
    requires 1 <= attempt <= attempts
    requires pos <= j < RetryIntended(fetch, attempts, delay, pos, attempt).next - 1
    ensures fetch(j).Err? && IntendedRetryable(fetch(j).error) && fetch(j).error.kind != ShapeFailure
    decreases attempts - attempt
  {
    if j > pos {
      RetryIntendedRetriedOnlyRetryable(fetch, attempts, delay, pos + 1, attempt + 1, j);
    }
  }

  /** The plain errors of a tagged fetcher, as the syncs see them. */
  function Plain<T>(fetch: nat -> Result<T, Failure>): nat -> Result<T, GrowiApiError> {
    (k: nat) => if fetch(k).Ok? then Ok(fetch(k).value) else Err(fetch(k).error.error)
  }

  /** Where the design's predicate and the private sync's agree on every call, the two
      retry loops make the same calls, sleep the same and give the same result. */
  lemma {:induction false} AgreesWithPrivateRetry<T>(fetch: nat -> Result<T, Failure>, delay: nat -> nat, pos: nat, attempt: nat)
    requires 1 <= attempt <= GrowiSync.MaxAttempts
    requires forall k: nat :: delay(k) == 1000 * k
    requires forall j: nat :: j >= pos && fetch(j).Err? ==>
               (IntendedRetryable(fetch(j).error) <==> GrowiSync.ShouldRetryGrowiError(ApiError(fetch(j).error.error)))
    ensures RetryIntended(fetch, GrowiSync.MaxAttempts, delay, pos, attempt) == GrowiSync.RetryFrom(Plain(fetch), pos, attempt)
    decreases GrowiSync.MaxAttempts - attempt
  {
    var r := fetch(pos);
    if r.Err? && IntendedRetryable(r.error) && attempt < GrowiSync.MaxAttempts {
      AgreesWithPrivateRetry(fetch, delay, pos + 1, attempt + 1);
    }
  }

  /** Where the design's predicate and the public sync's agree on every call, the two
      retry loops make the same calls, sleep the same and give the same result. */
  lemma {:induction false} AgreesWithPublicRetry<T>(fetch: nat -> Result<T, Failure>, policy: GrowiPublicSync.RetryPolicy,
                                                   pos: nat, attempt: nat)
    requires 1 <= attempt <= policy.times + 1
    requires forall j: nat :: j >= pos && fetch(j).Err? ==>
               (IntendedRetryable(fetch(j).error) <==> GrowiPublicSync.ShouldRetryGrowiError(fetch(j).error.error))
    ensures RetryIntended(fetch, policy.times + 1, policy.delay, pos, attempt) ==
              GrowiPublicSync.TryWithRetry(Plain(fetch), policy, pos, attempt)
    decreases policy.times + 1 - attempt
  {
    var r := fetch(pos);
    if r.Err? && IntendedRetryable(r.error) && attempt <= policy.times {
      AgreesWithPublicRetry(fetch, policy, pos + 1, attempt + 1);
    }
  }

  // ---- The two clients ----

  /** The private sync's fetcher over the partner's outcomes, with tagged errors. */
  function PrivateFetcher(s: Script): nat -> Result<UserContentsPage, Failure> {
    (k: nat) => ClassifyFailure(OutcomeAt(s, k), ParsePage, NoCheck, "Unexpected Growi response shape", "Growi request failed: ")
  }

  /** The public sync's fetcher over the partner's outcomes, with tagged errors. */
  function PublicFetcher(s: Script): nat -> Result<TopPostsResponse, Failure> {
    (k: nat) => ClassifyFailure(OutcomeAt(s, k), ParseTopPostsResponse, SuccessCheck,
                         "Unexpected Growi public response shape", "Growi public request failed: ")
  }

  /** Without the tags the fetchers are the syncs' own. */
  lemma {:induction false} FetchersArePlain(s: Script, k: nat)
    ensures Plain(PrivateFetcher(s))(k) == GrowiSync.Fetcher(s)(k)
    ensures Plain(PublicFetcher(s))(k) == GrowiPublicSync.Fetcher(s)(k)
  {
    var o := OutcomeAt(s, k);
    assert GrowiSync.Fetcher(s)(k) == ClassifyUserContents(o);
    assert GrowiPublicSync.Fetcher(s)(k) == ClassifyTopPosts(o);
  }

  /** A 2xx JSON body of the wrong shape is asked for once: the private page fetch
      stops at its 502 and sleeps not at all, whatever the partner would answer next. */
  lemma {:induction false} BadPageRequestedOnce(s: Script, pos: nat)
    requires var o := OutcomeAt(s, pos); o.Response? && IsOk(o.status) && o.json.Ok? && ParsePage(o.json.value).Err?
    ensures var o := OutcomeAt(s, pos);
            RetryIntended(PrivateFetcher(s), GrowiSync.MaxAttempts, k => 1000 * k, pos, 1) ==
              GrowiSync.Fetched(Err(GrowiApiError(502, "Unexpected Growi response shape" + " ("
                                                       + ShapeDetail(ParsePage(o.json.value).error) + ")")), pos + 1, [])
  {
    var o := OutcomeAt(s, pos);
    assert ClassifyUserContents(o) == Classify(o, ParsePage, NoCheck, "Unexpected Growi response shape", "Growi request failed: ");
    assert PrivateFetcher(s)(pos).Err? && PrivateFetcher(s)(pos).error.kind == ShapeFailure;
  }

  /** A 2xx JSON body of the wrong shape, or one reporting `success: false`, is asked for
      once: the public page fetch stops at its 502 whatever the retry policy. */
  lemma {:induction false} BadResponseRequestedOnce(s: Script, policy: GrowiPublicSync.RetryPolicy, pos: nat)
    requires var o := OutcomeAt(s, pos);
             && o.Response? && IsOk(o.status) && o.json.Ok?
             && (ParseTopPostsResponse(o.json.value).Err? || !ParseTopPostsResponse(o.json.value).value.success)
    ensures var o := OutcomeAt(s, pos);
            && ClassifyTopPosts(o).Err? && ClassifyTopPosts(o).error.status == 502
            && RetryIntended(PublicFetcher(s), policy.times + 1, policy.delay, pos, 1) ==
                 GrowiSync.Fetched(Err(ClassifyTopPosts(o).error), pos + 1, [])
  {
    var o := OutcomeAt(s, pos);
    assert ClassifyTopPosts(o) == Classify(o, ParseTopPostsResponse, SuccessCheck,
                                           "Unexpected Growi public response shape", "Growi public request failed: ");
    assert PublicFetcher(s)(pos).Err? && PublicFetcher(s)(pos).error.kind == ShapeFailure;
  }

  /** The cases where the private sync's code and the design part: a transport failure
      and a 429 are final in the code but retried by the design, a shape error the
      reverse. */
  lemma {:induction false} PrivateRetryDiffers(message: string)
    ensures !GrowiSync.ShouldRetryGrowiError(ApiError(GrowiApiError(0, message)))
            && IntendedRetryable(Failure(GrowiApiError(0, message), TransportFailure))
    ensures !GrowiSync.ShouldRetryGrowiError(ApiError(GrowiApiError(429, message)))
            && IntendedRetryable(Failure(GrowiApiError(429, message), StatusFailure))
    ensures GrowiSync.ShouldRetryGrowiError(ApiError(GrowiApiError(502, message)))
            && !IntendedRetryable(Failure(GrowiApiError(502, message), ShapeFailure))
  {
  }
}
