/** `syncGrowiUserContents`: page through the private Growi API, retrying a page on
    server errors and timeouts, and upsert every page into the tables as it arrives.
    The partner API is a `Script` of outcomes consumed one request at a time; the
    clock and the completion time are inputs. */
module GrowiSync {
  import opened Wrappers
  import opened JsText
  import opened JsNumber
  import opened JsValue
  import opened JsThrown
  import opened JsDate
  import opened GrowiApi
  import opened GrowiPrivateClient
  import opened GrowiDb
  import opened GrowiRepository
  import opened LegacyErrors

  const MaxAttempts: nat := 4
  const PageDelayMs: nat := 300
  const SyncOperation: string := "sync growi user contents"

  /** `shouldRetryGrowiError`: only a `GrowiApiError` is retried, and only for a 5xx
      status or a 422 whose message mentions a request timeout. */
  predicate ShouldRetryGrowiError(t: Thrown) {
    t.ApiError? && (t.error.status >= 500 || (t.error.status == 422 && Contains(t.error.message, "Request timeout")))
  }

  /** Failed fetches, rate limiting and client errors are final. */
  lemma {:induction false} RetryPolicy(message: string)
    ensures !ShouldRetryGrowiError(ApiError(GrowiApiError(0, message)))
    ensures !ShouldRetryGrowiError(ApiError(GrowiApiError(429, message)))
    ensures !ShouldRetryGrowiError(ApiError(GrowiApiError(404, message)))
    ensures ShouldRetryGrowiError(ApiError(GrowiApiError(502, message)))
    ensures ShouldRetryGrowiError(ApiError(GrowiApiError(422, "Request timeout" + message)))
  {
    assert OccursAt("Request timeout" + message, "Request timeout", 0);
  }

  /** The outcome of `fetchPageWithRetry` started at call number `pos` on attempt
      `attempt`: the result, the number of the next call, and the delays slept. The
      fetcher's `k`-th call gives `fetch(k)`. */
  datatype Fetched<T> = Fetched(result: Result<T, GrowiApiError>, next: nat, sleeps: seq<nat>)

  function RetryFrom<T>(fetch: nat -> Result<T, GrowiApiError>, pos: nat, attempt: nat): (f: Fetched<T>)
    requires 1 <= attempt <= MaxAttempts
    ensures pos < f.next
    decreases MaxAttempts - attempt
  {
    var r := fetch(pos);
    if r.Ok? || !ShouldRetryGrowiError(ApiError(r.error)) || attempt >= MaxAttempts then Fetched(r, pos + 1, [])
    else
      var rest := RetryFrom(fetch, pos + 1, attempt + 1);
      Fetched(rest.result, rest.next, [1000 * attempt] + rest.sleeps)
  }

  /** What the retry loop does, stated without it: it makes between one call and as
      many as attempts remain, and sleeps `1000 * attempt` after each failed one. */
  lemma {:induction false} RetryFromSleeps<T>(fetch: nat -> Result<T, GrowiApiError>, pos: nat, attempt: nat)
    requires 1 <= attempt <= MaxAttempts
    ensures var f := RetryFrom(fetch, pos, attempt);
            && pos < f.next <= pos + MaxAttempts + 1 - attempt
            && |f.sleeps| == f.next - pos - 1
            && (forall k :: 0 <= k < |f.sleeps| ==> f.sleeps[k] == 1000 * (attempt + k))
    decreases MaxAttempts - attempt
  {
    var r := fetch(pos);
    if !(r.Ok? || !ShouldRetryGrowiError(ApiError(r.error)) || attempt >= MaxAttempts) {
      RetryFromSleeps(fetch, pos + 1, attempt + 1);
      var rest := RetryFrom(fetch, pos + 1, attempt + 1);
      var f := RetryFrom(fetch, pos, attempt);
      assert f.sleeps == [1000 * attempt] + rest.sleeps;
      forall k | 0 <= k < |f.sleeps| ensures f.sleeps[k] == 1000 * (attempt + k) {
        if k > 0 {
          assert f.sleeps[k] == rest.sleeps[k - 1];
        }
      }
    }
  }

  /** The result is the last call's; it is an error only when that error is final or the
      attempts are used up. */
  lemma {:induction false} RetryFromResult<T>(fetch: nat -> Result<T, GrowiApiError>, pos: nat, attempt: nat)
    requires 1 <= attempt <= MaxAttempts
    ensures var f := RetryFrom(fetch, pos, attempt);
            && pos < f.next
            && f.result == fetch(f.next - 1)
            && (f.result.Err? ==> !ShouldRetryGrowiError(ApiError(f.result.error)) || f.next == pos + MaxAttempts + 1 - attempt)
    decreases MaxAttempts - attempt
  {
    var r := fetch(pos);
    if !(r.Ok? || !ShouldRetryGrowiError(ApiError(r.error)) || attempt >= MaxAttempts) {
      RetryFromResult(fetch, pos + 1, attempt + 1);
    }
  }

  /** Every call before the last one failed with a retryable error. */
  lemma {:induction false} RetryFromRetriedOnlyRetryable<T>(fetch: nat -> Result<T, GrowiApiError>, pos: nat, attempt: nat, j: nat)
    requires 1 <= attempt <= MaxAttempts
    requires pos <= j < RetryFrom(fetch, pos, attempt).next - 1
    ensures fetch(j).Err? && ShouldRetryGrowiError(ApiError(fetch(j).error))
    decreases MaxAttempts - attempt
  {
    if j > pos {
      RetryFromRetriedOnlyRetryable(fetch, pos + 1, attempt + 1, j);
    }
  }

  /** `fetchPageWithRetry(fetcher)`. */
  method FetchPageWithRetry<T>(fetch: nat -> Result<T, GrowiApiError>, pos: nat)
    returns (result: Result<T, GrowiApiError>, next: nat, sleeps: seq<nat>)
    ensures Fetched(result, next, sleeps) == RetryFrom(fetch, pos, 1)
  {
    var attempt := 1;
    next := pos;
    sleeps := [];
    var done := false;
    result := fetch(pos);
    while !done
      invariant 1 <= attempt <= MaxAttempts
      invariant !done ==> RetryFrom(fetch, pos, 1) == Fetched(RetryFrom(fetch, next, attempt).result, RetryFrom(fetch, next, attempt).next,
                                                             sleeps + RetryFrom(fetch, next, attempt).sleeps)
      invariant done ==> RetryFrom(fetch, pos, 1) == Fetched(result, next, sleeps)
      decreases !done, MaxAttempts - attempt
    {
      var r := fetch(next);
      if r.Ok? || !ShouldRetryGrowiError(ApiError(r.error)) || attempt >= MaxAttempts {
        assert sleeps + [] == sleeps;
        result, next, done := r, next + 1, true;
      } else {
        var rest := RetryFrom(fetch, next + 1, attempt + 1);
        assert sleeps + ([1000 * attempt] + rest.sleeps) == (sleeps + [1000 * attempt]) + rest.sleeps;
        sleeps := sleeps + [1000 * attempt];
        attempt, next := attempt + 1, next + 1;
      }
    }
  }

  /** The pages that calls `from` to `to - 1` of `fetch` returned, in call order. */
  function PagesIn<T>(fetch: nat -> Result<T, GrowiApiError>, from: nat, to: nat): seq<T>
    decreases (to as int) - (from as int)
  {
    if to <= from then []
    else (if fetch(from).Ok? then [fetch(from).value] else []) + PagesIn(fetch, from + 1, to)
  }

  lemma {:induction false} PagesInSplit<T>(fetch: nat -> Result<T, GrowiApiError>, from: nat, mid: nat, to: nat)
    requires from <= mid <= to
    ensures PagesIn(fetch, from, to) == PagesIn(fetch, from, mid) + PagesIn(fetch, mid, to)
    decreases mid - from
  {
    if from < mid {
      PagesInSplit(fetch, from + 1, mid, to);
      var head := if fetch(from).Ok? then [fetch(from).value] else [];
      assert head + (PagesIn(fetch, from + 1, mid) + PagesIn(fetch, mid, to))
          == (head + PagesIn(fetch, from + 1, mid)) + PagesIn(fetch, mid, to);
    } else {
      assert PagesIn(fetch, from, mid) == [];
      assert [] + PagesIn(fetch, mid, to) == PagesIn(fetch, mid, to);
    }
  }

  lemma {:induction false} PagesInNone<T>(fetch: nat -> Result<T, GrowiApiError>, from: nat, to: nat)
    requires forall j: nat :: from <= j < to ==> fetch(j).Err?
    ensures PagesIn(fetch, from, to) == []
    decreases (to as int) - (from as int)
  {
    if from < to {
      PagesInNone(fetch, from + 1, to);
      assert PagesIn(fetch, from, to) == [] + PagesIn(fetch, from + 1, to);
    }
  }

  /** The calls one retried fetch makes return at most one page: its result. */
  lemma {:induction false} RetryFromPages<T>(fetch: nat -> Result<T, GrowiApiError>, pos: nat)
    ensures var f := RetryFrom(fetch, pos, 1);
            PagesIn(fetch, pos, f.next) == (if f.result.Ok? then [f.result.value] else [])
  {
    var f := RetryFrom(fetch, pos, 1);
    RetryFromResult(fetch, pos, 1);
    forall j: nat | pos <= j < f.next - 1 ensures fetch(j).Err? {
      RetryFromRetriedOnlyRetryable(fetch, pos, 1, j);
    }
    PagesInNone(fetch, pos, f.next - 1);
    PagesInSplit(fetch, pos, f.next - 1, f.next);
    assert PagesIn(fetch, f.next - 1, f.next)
        == (if fetch(f.next - 1).Ok? then [fetch(f.next - 1).value] else []) + PagesIn(fetch, f.next, f.next);
  }

  /** One `fetchGrowiUserContentsPage` call per scripted outcome, its error thrown. */
  function Fetcher(s: Script): nat -> Result<UserContentsPage, GrowiApiError> {
    (k: nat) => ClassifyUserContents(OutcomeAt(s, k))
  }

  /** Every call of `fetch` from number `bound` on fails. */
  ghost predicate FailsFrom<T>(fetch: nat -> Result<T, GrowiApiError>, bound: nat) {
    forall k: nat :: k >= bound ==> fetch(k).Err?
  }

  /** When every call from `bound` on fails, a successful fetch ends before `bound`. */
  lemma {:induction false} RetryOkBefore<T>(fetch: nat -> Result<T, GrowiApiError>, pos: nat, bound: nat)
    requires FailsFrom(fetch, bound)
    requires RetryFrom(fetch, pos, 1).result.Ok?
    ensures pos < RetryFrom(fetch, pos, 1).next <= bound
  {
    RetryFromResult(fetch, pos, 1);
  }

  /** Past the scripted outcomes every request fails. */
  lemma {:induction false} ScriptExhausts(s: Script)
    ensures FailsFrom(Fetcher(s), |s.outcomes|)
  {
    forall k: nat | k >= |s.outcomes| ensures Fetcher(s)(k).Err? {
      assert OutcomeAt(s, k) == Transport(s.exhausted);
    }
  }

  datatype SyncArgs = SyncArgs(startDate: string, endDate: string, perPage: real, maxPages: Option<Number>)

  /** The counters of the page loop; `page` is the page to request next. */
  datatype Progress = Progress(page: real, pagesFetched: nat, rowsFetched: nat, rowCount: real, pageCount: real)

  const Start: Progress := Progress(1.0, 0, 0, 0.0, 0.0)

  /** What the sync sees of the world: the `bearerToken` binding, the partner API, the host
      conversions, the clock reading of each upsert and of the end of the run. */
  datatype SyncEnv = SyncEnv(bearerToken: Value, script: Script, host: Host, clock: nat -> TimeValue, completedAt: TimeValue)

  datatype SyncSummary = SyncSummary(
    startDate: string, endDate: string, perPage: real,
    pagesFetched: nat, rowsFetched: nat, rowCount: real, pageCount: real,
    completedAt: string)

  /** A whole run: its result, the tables afterwards, the `page` parameter of every request
      sent (see `Sent` for the requests themselves) and every delay slept. */
  datatype SyncRun = SyncRun(result: Result<SyncSummary, AppError>, tables: Tables, requested: seq<real>, sleeps: seq<nat>)

  /** `args.maxPages && pagesFetched >= args.maxPages`. */
  predicate BudgetReached(maxPages: Option<Number>, pagesFetched: nat) {
    maxPages.Some? && Truthy(Num(maxPages.value)) &&
    match maxPages.value
    case Finite(m) => pagesFetched as real >= m
    case NegInfinity => true
    case _ => false
  }

  function Summary(a: SyncArgs, p: Progress, completedAt: string): SyncSummary {
    SyncSummary(a.startDate, a.endDate, a.perPage, p.pagesFetched, p.rowsFetched, p.rowCount, p.pageCount, completedAt)
  }

  /** The requests a run sends, one `fetchGrowiUserContentsPage` call per requested page,
      with the configuration built from the token. */
  function Sent(e: SyncEnv, a: SyncArgs, requested: seq<real>): seq<Request>
    requires e.bearerToken.Str?
  {
    var config := GetGrowiApiConfig(e.bearerToken).value;
    seq(|requested|, k requires 0 <= k < |requested| =>
      UserContentsRequest(config, PageArgs(a.startDate, a.endDate, requested[k], a.perPage), e.host.render))
  }

  function Repeat(r: real, n: nat): (rs: seq<real>)
    ensures |rs| == n && forall k :: 0 <= k < n ==> rs[k] == r
  {
    seq(n, _ => r)
  }

  /** The error a thrown `GrowiApiError` becomes in the sync's `catch`. */
  function SyncFailure(error: GrowiApiError): AppError {
    NewDbQueryError(SyncOperation, ErrorInstance("GrowiApiError", error.message))
  }

  function Prepend(requested: seq<real>, sleeps: seq<nat>, run: SyncRun): SyncRun {
    run.(requested := requested + run.requested, sleeps := sleeps + run.sleeps)
  }

  /** One turn of the page loop: it stops with the run's result, or continues from the
      next script position with new counters. Either way it says the tables after it,
      the pages it requested and the delays it slept. */
  datatype Step =
    | Stop(result: Result<SyncSummary, AppError>, tables: Tables, requested: seq<real>, sleeps: seq<nat>)
    | Continue(tables: Tables, requested: seq<real>, sleeps: seq<nat>, next: nat, progress: Progress)

  /** `f` is what the retried fetch from `pos` gives, when the budget lets it happen. */
  function PageStep(e: SyncEnv, a: SyncArgs, iso: string, t: Tables, pos: nat, p: Progress, f: Fetched<UserContentsPage>): (s: Step)
    requires pos < f.next
    ensures s.Continue? ==> s.next == f.next && f.result.Ok?
  {
    if BudgetReached(a.maxPages, p.pagesFetched) then Stop(Ok(Summary(a, p, iso)), t, [], [])
    else AfterFetch(e, a, iso, t, pos, p, f)
  }

  /** The rest of a turn once the page is fetched, or has failed for good. */
  function AfterFetch(e: SyncEnv, a: SyncArgs, iso: string, t: Tables, pos: nat, p: Progress, f: Fetched<UserContentsPage>): (s: Step)
    requires pos < f.next
    ensures s.Continue? ==> s.next == f.next && f.result.Ok?
  {
    var requested := Repeat(p.page, f.next - pos);
    if f.result.Err? then Stop(Err(SyncFailure(f.result.error)), t, requested, f.sleeps)
    else
      var page := f.result.value;
      var q := Progress(p.page, p.pagesFetched + 1, p.rowsFetched + |page.data|, page.meta.rowCount, page.meta.pageCount);
      AfterUpsert(e, a, iso, t, page, q, Upsert(t, page.data, e.clock(p.pagesFetched), e.host), requested, f.sleeps, f.next)
  }

  /** The rest of a turn once the page is upserted: stop on an error, on the last page or
      on an empty one; otherwise sleep and go on with `next_page`. */
  function AfterUpsert(e: SyncEnv, a: SyncArgs, iso: string, t: Tables, page: UserContentsPage, q: Progress, u: UpsertOutcome,
                       requested: seq<real>, sleeps: seq<nat>, next: nat): (s: Step)
    ensures s.Continue? ==> s.next == next
  {
    if u.result.Err? then Stop(Err(u.result.error), t, requested, sleeps)
    else if page.meta.nextPage.None? || page.meta.nextPage.value == 0.0 || |page.data| == 0 then
      Stop(Ok(Summary(a, q, iso)), u.tables, requested, sleeps)
    else Continue(u.tables, requested, sleeps + [PageDelayMs], next, q.(page := page.meta.nextPage.value))
  }

  /** Under the budget, a fetched page goes on to its upsert. */
  lemma {:induction false} PageStepOfPage(e: SyncEnv, a: SyncArgs, iso: string, t: Tables, pos: nat, p: Progress, f: Fetched<UserContentsPage>,
                                          page: UserContentsPage, q: Progress, sent: seq<real>, now: TimeValue)
    requires pos < f.next && f.result == Ok(page) && !BudgetReached(a.maxPages, p.pagesFetched)
    requires q == Progress(p.page, p.pagesFetched + 1, p.rowsFetched + |page.data|, page.meta.rowCount, page.meta.pageCount)
    requires sent == Repeat(p.page, f.next - pos) && now == e.clock(p.pagesFetched)
    ensures PageStep(e, a, iso, t, pos, p, f) == AfterUpsert(e, a, iso, t, page, q, Upsert(t, page.data, now, e.host), sent, f.sleeps, f.next)
  {
    assert PageStep(e, a, iso, t, pos, p, f) == AfterFetch(e, a, iso, t, pos, p, f);
  }

  /** The page loop from call number `pos`, tables `t` and counters `p`: the fetcher's
      `k`-th call gives `fetch(k)`, and every call from `bound` on fails. */
  function SyncFrom(e: SyncEnv, a: SyncArgs, iso: string, fetch: nat -> Result<UserContentsPage, GrowiApiError>, bound: nat,
                    t: Tables, pos: nat, p: Progress): SyncRun
    requires FailsFrom(fetch, bound) && pos <= bound
    decreases bound - pos
  {
    var f := RetryFrom(fetch, pos, 1);
    if f.result.Ok? then RetryOkBefore(fetch, pos, bound); SyncAfter(e, a, iso, fetch, bound, t, pos, p, f)
    else SyncAfter(e, a, iso, fetch, bound, t, pos, p, f)
  }

  function SyncAfter(e: SyncEnv, a: SyncArgs, iso: string, fetch: nat -> Result<UserContentsPage, GrowiApiError>, bound: nat,
                     t: Tables, pos: nat, p: Progress, f: Fetched<UserContentsPage>): SyncRun
    requires FailsFrom(fetch, bound) && pos < f.next && (f.result.Ok? ==> f.next <= bound)
    decreases bound - pos, 0
  {
    match PageStep(e, a, iso, t, pos, p, f)
    case Stop(result, after, requested, sleeps) => SyncRun(result, after, requested, sleeps)
    case Continue(after, requested, sleeps, next, q) => Prepend(requested, sleeps, SyncFrom(e, a, iso, fetch, bound, after, next, q))
  }

  /** `SyncFrom` is its first turn followed by the rest of the run. */
  lemma {:induction false} SyncFromStep(e: SyncEnv, a: SyncArgs, iso: string, fetch: nat -> Result<UserContentsPage, GrowiApiError>, bound: nat,
                                        t: Tables, pos: nat, p: Progress)
    requires FailsFrom(fetch, bound) && pos <= bound
    ensures var s := PageStep(e, a, iso, t, pos, p, RetryFrom(fetch, pos, 1));
            && (s.Stop? ==> SyncFrom(e, a, iso, fetch, bound, t, pos, p) == SyncRun(s.result, s.tables, s.requested, s.sleeps))
            && (s.Continue? ==> pos < s.next <= bound)
            && (s.Continue? ==>
                  SyncFrom(e, a, iso, fetch, bound, t, pos, p)
                  == Prepend(s.requested, s.sleeps, SyncFrom(e, a, iso, fetch, bound, s.tables, s.next, s.progress)))
  {
    var f := RetryFrom(fetch, pos, 1);
    if f.result.Ok? {
      RetryOkBefore(fetch, pos, bound);
    }
    assert SyncFrom(e, a, iso, fetch, bound, t, pos, p) == SyncAfter(e, a, iso, fetch, bound, t, pos, p, f);
  }

  /** Prepending twice is prepending the concatenations. */
  lemma {:induction false} PrependTwice(r1: seq<real>, s1: seq<nat>, r2: seq<real>, s2: seq<nat>, run: SyncRun)
    ensures Prepend(r1, s1, Prepend(r2, s2, run)) == Prepend(r1 + r2, s1 + s2, run)
  {
    assert r1 + (r2 + run.requested) == (r1 + r2) + run.requested;
    assert s1 + (s2 + run.sleeps) == (s1 + s2) + run.sleeps;
  }

  /** The whole run against the scripted partner API: a token that is not a string fails
      before any request; otherwise the page loop from the first page. The summary's
      `completedAt` is the ISO text of the run's end. */
  function Sync(t: Tables, e: SyncEnv, a: SyncArgs): (run: SyncRun)
    ensures !e.bearerToken.Str? ==>
              run == SyncRun(Err(SyncFailure(GrowiApiError(0, "Invalid Growi API config"))), t, [], [])
  {
    match GetGrowiApiConfig(e.bearerToken)
    case Err(error) => SyncRun(Err(SyncFailure(error)), t, [], [])
    case Ok(_) =>
      ScriptExhausts(e.script);
      SyncFrom(e, a, ToIsoString(e.completedAt), Fetcher(e.script), |e.script.outcomes|, t, 0, Start)
  }

  /** The message of the `TypeError` that reading `length` of `undefined` raises. */
  const ReadLengthOfUndefined: string := "Cannot read properties of undefined (reading 'length')"

  /** `syncGrowiUserContents` as written. `config` holds the `Result` of
      `getGrowiApiConfig`, not the configuration, so `config.apiBaseUrl` is undefined and
      `new URL(...)` throws inside `fetchGrowiUserContentsPage` before any request. That
      function returns its error as a `Result` instead of throwing it, so
      `fetchPageWithRetry` never retries and hands back the `Result` as the page, and
      `response.data.length` throws a `TypeError`, which the `catch` wraps. Only a budget
      spent from the start gets past this, with an empty summary. */
  function SyncAsWritten(t: Tables, e: SyncEnv, a: SyncArgs): (run: SyncRun)
    ensures run.tables == t && run.requested == [] && run.sleeps == []
    ensures run.result.Ok? <==> BudgetReached(a.maxPages, 0)
    ensures run.result.Err? ==> run.result.error == NewDbQueryError(SyncOperation, ErrorInstance("TypeError", ReadLengthOfUndefined))
  {
    if BudgetReached(a.maxPages, 0) then SyncRun(Ok(Summary(a, Start, ToIsoString(e.completedAt))), t, [], [])
    else SyncRun(Err(NewDbQueryError(SyncOperation, ErrorInstance("TypeError", ReadLengthOfUndefined))), t, [], [])
  }

  /** One turn of the loop of `syncGrowiUserContents` against `store`. */
  method SyncPage(store: GrowiStore, e: SyncEnv, a: SyncArgs, iso: string, fetch: nat -> Result<UserContentsPage, GrowiApiError>,
                  pos: nat, p: Progress) returns (s: Step)
    modifies store
    ensures s == PageStep(e, a, iso, old(store.Snapshot()), pos, p, RetryFrom(fetch, pos, 1))
    ensures store.Snapshot() == s.tables
  {
    ghost var t := store.Snapshot();
    if BudgetReached(a.maxPages, p.pagesFetched) {
      return Stop(Ok(Summary(a, p, iso)), store.Snapshot(), [], []);
    }
    var fetched, next, slept := FetchPageWithRetry(fetch, pos);
    ghost var f := Fetched(fetched, next, slept);
    var sent := Repeat(p.page, next - pos);
    if fetched.Err? {
      return Stop(Err(SyncFailure(fetched.error)), store.Snapshot(), sent, slept);
    }
    var page := fetched.value;
    var q := Progress(p.page, p.pagesFetched + 1, p.rowsFetched + |page.data|, page.meta.rowCount, page.meta.pageCount);
    PageStepOfPage(e, a, iso, t, pos, p, f, page, q, sent, e.clock(p.pagesFetched));
    s := FinishPage(store, e, a, iso, page, q, sent, slept, next, e.clock(p.pagesFetched));
  }

  /** The upsert of a fetched page and the decision that follows it. */
  method FinishPage(store: GrowiStore, e: SyncEnv, a: SyncArgs, iso: string, page: UserContentsPage, q: Progress,
                    sent: seq<real>, slept: seq<nat>, next: nat, now: TimeValue) returns (s: Step)
    modifies store
    ensures s == AfterUpsert(e, a, iso, old(store.Snapshot()), page, q, Upsert(old(store.Snapshot()), page.data, now, e.host), sent, slept, next)
    ensures store.Snapshot() == s.tables
  {
    var upserted := UpsertGrowiPage(store, page.data, now, e.host);
    if upserted.Err? {
      return Stop(Err(upserted.error), store.Snapshot(), sent, slept);
    }
    if page.meta.nextPage.None? || page.meta.nextPage.value == 0.0 || |page.data| == 0 {
      return Stop(Ok(Summary(a, q, iso)), store.Snapshot(), sent, slept);
    }
    return Continue(store.Snapshot(), sent, slept + [PageDelayMs], next, q.(page := page.meta.nextPage.value));
  }

  /** The page loop of `syncGrowiUserContents`, from the first page, against any fetcher
      whose calls fail from `bound` on. */
  method SyncPages(store: GrowiStore, e: SyncEnv, a: SyncArgs, iso: string, fetch: nat -> Result<UserContentsPage, GrowiApiError>, bound: nat)
    returns (result: Result<SyncSummary, AppError>, requested: seq<real>, sleeps: seq<nat>)
    requires FailsFrom(fetch, bound)
    modifies store
    ensures SyncRun(result, store.Snapshot(), requested, sleeps) == SyncFrom(e, a, iso, fetch, bound, old(store.Snapshot()), 0, Start)
  {
    var p := Start;
    var pos := 0;
    requested, sleeps := [], [];
    result := Ok(Summary(a, p, iso));
    var done := false;
    ghost var spec := SyncFrom(e, a, iso, fetch, bound, store.Snapshot(), 0, Start);
    while !done
      invariant pos <= bound
      invariant !done ==> Prepend(requested, sleeps, SyncFrom(e, a, iso, fetch, bound, store.Snapshot(), pos, p)) == spec
      invariant done ==> SyncRun(result, store.Snapshot(), requested, sleeps) == spec
      decreases !done, bound - pos
    {
      SyncFromStep(e, a, iso, fetch, bound, store.Snapshot(), pos, p);
      var step := SyncPage(store, e, a, iso, fetch, pos, p);
      if step.Stop? {
        result, done := step.result, true;
        requested, sleeps := requested + step.requested, sleeps + step.sleeps;
      } else {
        PrependTwice(requested, sleeps, step.requested, step.sleeps, SyncFrom(e, a, iso, fetch, bound, step.tables, step.next, step.progress));
        requested, sleeps := requested + step.requested, sleeps + step.sleeps;
        pos, p := step.next, step.progress;
      }
    }
  }

  /** `syncGrowiUserContents(db, bindings, args)`: the configuration, then the page loop
      against the partner API, upserting each page into `store` as it arrives. */
  method SyncGrowiUserContents(store: GrowiStore, e: SyncEnv, a: SyncArgs)
    returns (result: Result<SyncSummary, AppError>, requested: seq<real>, sleeps: seq<nat>)
    modifies store
    ensures SyncRun(result, store.Snapshot(), requested, sleeps) == Sync(old(store.Snapshot()), e, a)
  {
    var config := GetGrowiApiConfig(e.bearerToken);
    if config.Err? {
      return Err(SyncFailure(config.error)), [], [];
    }
    var iso := ToIsoString(e.completedAt);
    ScriptExhausts(e.script);
    result, requested, sleeps := SyncPages(store, e, a, iso, Fetcher(e.script), |e.script.outcomes|);
  }
}
