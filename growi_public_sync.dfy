/** `syncGrowiTopPostsByViews`: page through the public Growi API's top posts by views,
    one page number after the other, retrying a page through the result library's
    retry options, and upsert every page into the tables as it arrives. The partner API
    is a `Script` of outcomes consumed one request at a time; the retry policy, the
    clock and the completion time are inputs. */
module GrowiPublicSync {
  import opened Wrappers
  import opened JsText
  import opened JsNumber
  import opened JsValue
  import opened JsThrown
  import opened JsDate
  import opened GrowiApi
  import opened GrowiPrivateClient
  import opened GrowiPublicClient
  import opened GrowiDb
  import opened GrowiRepository
  import opened LegacyErrors
  import GrowiSync

  const PageDelayMs: nat := 2200
  const ConfigOperation: string := "build growi public api config"
  const FetchOperation: string := "fetch growi public top_posts_by_views page"
  const RawSource: string := "public_top_posts_by_views"

  // ---- Retrying a page ----

  /** `shouldRetryGrowiError`: a failed request, rate limiting, a 5xx status, or a 422
      whose message mentions a request timeout in any letter case. */
  predicate ShouldRetryGrowiError(error: GrowiApiError) {
    || error.status == 0 || error.status == 429 || error.status >= 500
    || (error.status == 422 && Contains(LowerAscii(error.message), "request timeout"))
  }

  /** `toGrowiApiError`: what the `catch` of the retried call makes of what it receives. */
  function ToGrowiApiError(cause: Thrown): (e: GrowiApiError)
    ensures cause.ApiError? ==> e == cause.error
    ensures cause.Raised? ==> e.status == 0
    ensures cause.Raised? && cause.cause.ErrorInstance? ==> e.message == cause.cause.message
    ensures cause.Raised? && cause.cause.NonError? ==> e.message == "Growi public request failed: " + cause.cause.text
  {
    CatchToApiError(cause, "Growi public request failed: ")
  }

  /** The `retry` option of `Result.tryPromise`: at most `times` attempts after the first,
      and `delay(k)` milliseconds of sleep before the `k`-th of them. How the library
      reads `{ times: 3, delayMs: 1000, backoff: 'linear' }` is a parameter here. */
  datatype RetryPolicy = RetryPolicy(times: nat, delay: nat -> nat)

  /** The retried call started at call number `pos` on attempt `attempt`: the fetcher's
      `k`-th call gives `fetch(k)`; a retryable error is tried again while attempts
      remain. */
  function TryWithRetry<T>(fetch: nat -> Result<T, GrowiApiError>, policy: RetryPolicy, pos: nat, attempt: nat): (f: GrowiSync.Fetched<T>)
    requires 1 <= attempt <= policy.times + 1
    ensures pos < f.next
    decreases policy.times + 1 - attempt
  {
    var r := fetch(pos);
    if r.Ok? || !ShouldRetryGrowiError(r.error) || attempt > policy.times then GrowiSync.Fetched(r, pos + 1, [])
    else
      var rest := TryWithRetry(fetch, policy, pos + 1, attempt + 1);
      GrowiSync.Fetched(rest.result, rest.next, [policy.delay(attempt)] + rest.sleeps)
  }

  /** The calls made and the delays slept: at most as many calls as attempts remain, and
      the policy's delay before each further one. */
  lemma {:induction false} TryWithRetrySleeps<T>(fetch: nat -> Result<T, GrowiApiError>, policy: RetryPolicy, pos: nat, attempt: nat)
    requires 1 <= attempt <= policy.times + 1
    ensures var f := TryWithRetry(fetch, policy, pos, attempt);
            && pos < f.next <= pos + policy.times + 2 - attempt
            && |f.sleeps| == f.next - pos - 1
            && (forall k :: 0 <= k < |f.sleeps| ==> f.sleeps[k] == policy.delay(attempt + k))
    decreases policy.times + 1 - attempt
  {
    var r := fetch(pos);
    if !(r.Ok? || !ShouldRetryGrowiError(r.error) || attempt > policy.times) {
      TryWithRetrySleeps(fetch, policy, pos + 1, attempt + 1);
      var rest := TryWithRetry(fetch, policy, pos + 1, attempt + 1);
      var f := TryWithRetry(fetch, policy, pos, attempt);
      assert f.sleeps == [policy.delay(attempt)] + rest.sleeps;
      forall k | 0 <= k < |f.sleeps| ensures f.sleeps[k] == policy.delay(attempt + k) {
        if k > 0 {
          assert f.sleeps[k] == rest.sleeps[k - 1];
        }
      }
    }
  }

  /** The result is the last call's; it is an error only when that error is final or the
      attempts are used up. */
  lemma {:induction false} TryWithRetryResult<T>(fetch: nat -> Result<T, GrowiApiError>, policy: RetryPolicy, pos: nat, attempt: nat)
    requires 1 <= attempt <= policy.times + 1
    ensures var f := TryWithRetry(fetch, policy, pos, attempt);
            && f.result == fetch(f.next - 1)
            && (f.result.Err? ==> !ShouldRetryGrowiError(f.result.error) || f.next == pos + policy.times + 2 - attempt)
    decreases policy.times + 1 - attempt
  {
    var r := fetch(pos);
    if !(r.Ok? || !ShouldRetryGrowiError(r.error) || attempt > policy.times) {
      TryWithRetryResult(fetch, policy, pos + 1, attempt + 1);
    }
  }

  /** Every call before the last one failed with a retryable error. */
  lemma {:induction false} TryWithRetryRetriedOnlyRetryable<T>(fetch: nat -> Result<T, GrowiApiError>, policy: RetryPolicy,
                                                               pos: nat, attempt: nat, j: nat)
    requires 1 <= attempt <= policy.times + 1
    requires pos <= j < TryWithRetry(fetch, policy, pos, attempt).next - 1
    ensures fetch(j).Err? && ShouldRetryGrowiError(fetch(j).error)
    decreases policy.times + 1 - attempt
  {
    if j > pos {
      TryWithRetryRetriedOnlyRetryable(fetch, policy, pos + 1, attempt + 1, j);
    }
  }

  /** When every call from `bound` on fails, a successful retried call ends before `bound`. */
  lemma {:induction false} TryWithRetryOkBefore<T>(fetch: nat -> Result<T, GrowiApiError>, policy: RetryPolicy, pos: nat, bound: nat)
    requires GrowiSync.FailsFrom(fetch, bound)
    requires TryWithRetry(fetch, policy, pos, 1).result.Ok?
    ensures pos < TryWithRetry(fetch, policy, pos, 1).next <= bound
  {
    TryWithRetryResult(fetch, policy, pos, 1);
  }

  /** One `fetchGrowiTopPostsByViewsPage` call per scripted outcome; its error is thrown,
      and the `catch` turns it back into the error. */
  function Fetcher(s: Script): nat -> Result<TopPostsResponse, GrowiApiError> {
    (k: nat) =>
      match ClassifyTopPosts(OutcomeAt(s, k))
      case Ok(response) => Ok(response)
      case Err(error) => Err(ToGrowiApiError(ApiError(error)))
  }

  /** Past the scripted outcomes every request fails. */
  lemma {:induction false} ScriptExhausts(s: Script)
    ensures GrowiSync.FailsFrom(Fetcher(s), |s.outcomes|)
  {
    forall k: nat | k >= |s.outcomes| ensures Fetcher(s)(k).Err? {
      assert OutcomeAt(s, k) == Transport(s.exhausted);
    }
  }

  // ---- Rows ----

  /** `toInternalPostRow`: a public post as a user-content row. */
  function ToInternalPostRow(post: TopPost): (row: UserContentRow)
    ensures row.fields.id == post.id as real && row.fields.shareUrl == post.shareUrl && row.fields.platform == post.platform
    ensures row.fields.contentType == post.contentType && row.fields.externalId == post.externalId
    ensures row.fields.title == post.title && row.fields.connectedAccountUsername == post.username
    ensures row.fields.profileShareUrl == post.profileShareUrl
    ensures row.fields.viewCount == post.metrics.views as real && row.fields.likeCount == post.metrics.likes as real
    ensures row.fields.commentCount == post.metrics.comments as real && row.fields.shareCount == post.metrics.shares as real
    ensures row.fields.connectedAccountId.None? && row.fields.campaignId.None? && row.fields.campaignName.None?
    ensures row.fields.createTime.None? && row.fields.updatedAt.None?
    ensures row.fields.savesCount.None? && row.fields.engagementRate.None?
    ensures row.raw.Obj? && Get(row.raw, "raw_source") == Str(RawSource) && Get(row.raw, "gmv") == OptString(post.gmv)
  {
    var fields := RowFields(
      post.id as real, post.shareUrl, post.platform, post.contentType, post.externalId, post.title,
      None, post.username, post.profileShareUrl, None, None, None, None,
      post.metrics.views as real, post.metrics.likes as real, post.metrics.comments as real, post.metrics.shares as real,
      None, None);
    UserContentRow(fields, Obj(RowProps(fields)["gmv" := OptString(post.gmv)]["raw_source" := Str(RawSource)]))
  }

  /** `response.data.top_posts_by_views.map(toInternalPostRow)`. */
  function PostRows(posts: seq<TopPost>): seq<UserContentRow> {
    seq(|posts|, i requires 0 <= i < |posts| => ToInternalPostRow(posts[i]))
  }

  // ---- The page loop ----

  datatype SyncArgs = SyncArgs(startDate: string, endDate: string, limit: real, perPage: real, includeGmv: bool,
                               maxPages: Option<Number>)

  /** The counters of the page loop; `page` is the page to request next. */
  datatype Progress = Progress(page: nat, pagesFetched: nat, rowsFetched: nat, rowCount: nat, pageCount: nat)

  const Start: Progress := Progress(1, 0, 0, 0, 0)

  /** What the sync sees of the world: the `publicApiKey` argument, the partner API, the
      retry policy, the host conversions, the clock reading of each upsert and of the
      end of the run. */
  datatype SyncEnv = SyncEnv(publicApiKey: Value, script: Script, policy: RetryPolicy, host: Host,
                             clock: nat -> TimeValue, completedAt: TimeValue)

  datatype SyncSummary = SyncSummary(
    startDate: string, endDate: string, limit: real, perPage: real, includeGmv: bool,
    pagesFetched: nat, rowsFetched: nat, rowCount: nat, pageCount: nat,
    completedAt: string)

  /** A whole run: its result, the tables afterwards, the `page` argument of every request
      sent (see `Sent` for the requests themselves) and every delay slept. */
  datatype SyncRun = SyncRun(result: Result<SyncSummary, AppError>, tables: Tables, requested: seq<nat>, sleeps: seq<nat>)

  function Summary(a: SyncArgs, p: Progress, completedAt: string): SyncSummary {
    SyncSummary(a.startDate, a.endDate, a.limit, a.perPage, a.includeGmv, p.pagesFetched, p.rowsFetched, p.rowCount, p.pageCount,
      completedAt)
  }

  /** The arguments of the fetch of page `page`; `perPage` is always a number. */
  function PageArgsOf(a: SyncArgs, page: nat): TopPostsArgs {
    TopPostsArgs(a.startDate, a.endDate, page as real, a.limit, Some(a.perPage), a.includeGmv)
  }

  /** The requests a run sends, one `fetchGrowiTopPostsByViewsPage` call per requested
      page, with the configuration `getGrowiPublicApiConfig` built from the key. */
  function Sent(config: PublicApiConfig, a: SyncArgs, render: real -> string, requested: seq<nat>): seq<Request> {
    seq(|requested|, k requires 0 <= k < |requested| => TopPostsRequest(config, PageArgsOf(a, requested[k]), render))
  }

  function Pages(page: nat, n: nat): (ps: seq<nat>)
    ensures |ps| == n && forall k :: 0 <= k < n ==> ps[k] == page
  {
    seq(n, _ => page)
  }

  /** The error a failed page becomes. */
  function FetchFailure(error: GrowiApiError): AppError {
    NewDbQueryError(FetchOperation, ErrorInstance("GrowiApiError", error.message))
  }

  /** The error a configuration failure becomes. */
  function ConfigFailure(error: GrowiApiError): AppError {
    NewDbQueryError(ConfigOperation, ErrorInstance("GrowiApiError", error.message))
  }

  /** No rows, or the meta says there are no more pages, or `has_more` is `false`. */
  predicate LastPage(response: TopPostsResponse) {
    || |response.posts| == 0
    || response.meta.pageCount == 0 || response.meta.currentPage >= response.meta.pageCount
    || response.meta.hasMore == Some(false)
  }

  function Prepend(requested: seq<nat>, sleeps: seq<nat>, run: SyncRun): SyncRun {
    run.(requested := requested + run.requested, sleeps := sleeps + run.sleeps)
  }

  /** One turn of the page loop: it stops with the run's result, or continues from the
      next script position with new counters. */
  datatype Step =
    | Stop(result: Result<SyncSummary, AppError>, tables: Tables, requested: seq<nat>, sleeps: seq<nat>)
    | Continue(tables: Tables, requested: seq<nat>, sleeps: seq<nat>, next: nat, progress: Progress)

  /** `f` is what the retried fetch from `pos` gives, when the budget lets it happen. */
  function PageStep(e: SyncEnv, a: SyncArgs, iso: string, t: Tables, pos: nat, p: Progress, f: GrowiSync.Fetched<TopPostsResponse>): (s: Step)
    requires pos < f.next
    ensures s.Continue? ==> s.next == f.next && f.result.Ok?
  {
    if GrowiSync.BudgetReached(a.maxPages, p.pagesFetched) then Stop(Ok(Summary(a, p, iso)), t, [], [])
    else AfterFetch(e, a, iso, t, pos, p, f)
  }

  /** The rest of a turn once the page is fetched, or has failed for good. */
  function AfterFetch(e: SyncEnv, a: SyncArgs, iso: string, t: Tables, pos: nat, p: Progress, f: GrowiSync.Fetched<TopPostsResponse>): (s: Step)
    requires pos < f.next
    ensures s.Continue? ==> s.next == f.next && f.result.Ok?
  {
    var requested := Pages(p.page, f.next - pos);
    if f.result.Err? then Stop(Err(FetchFailure(f.result.error)), t, requested, f.sleeps)
    else UpsertPage(e, a, iso, t, p, f.result.value, PostRows(f.result.value.posts), requested, f.sleeps, f.next)
  }

  /** The upsert of the `rows` of a fetched page, with the counters they bring. */
  function UpsertPage(e: SyncEnv, a: SyncArgs, iso: string, t: Tables, p: Progress, response: TopPostsResponse,
                      rows: seq<UserContentRow>, requested: seq<nat>, sleeps: seq<nat>, next: nat): (s: Step)
    ensures s.Continue? ==> s.next == next
  {
    var q := Progress(p.page, p.pagesFetched + 1, p.rowsFetched + |rows|, response.meta.rowCount, response.meta.pageCount);
    AfterUpsert(e, a, iso, t, response, q, Upsert(t, rows, e.clock(p.pagesFetched), e.host), requested, sleeps, next)
  }

  /** The rest of a turn once the page is upserted: stop on an error or on the last page;
      otherwise sleep and go on with the next page number. */
  function AfterUpsert(e: SyncEnv, a: SyncArgs, iso: string, t: Tables, response: TopPostsResponse, q: Progress, u: UpsertOutcome,
                       requested: seq<nat>, sleeps: seq<nat>, next: nat): (s: Step)
    ensures s.Continue? ==> s.next == next
  {
    if u.result.Err? then Stop(Err(u.result.error), t, requested, sleeps)
    else if LastPage(response) then Stop(Ok(Summary(a, q, iso)), u.tables, requested, sleeps)
    else Continue(u.tables, requested, sleeps + [PageDelayMs], next, q.(page := q.page + 1))
  }

  /** Under the budget, a fetched page goes on to its upsert. */
  lemma {:induction false} PageStepOfPage(e: SyncEnv, a: SyncArgs, iso: string, t: Tables, pos: nat, p: Progress,
                                          f: GrowiSync.Fetched<TopPostsResponse>, response: TopPostsResponse, sent: seq<nat>)
    requires pos < f.next && f.result == Ok(response) && !GrowiSync.BudgetReached(a.maxPages, p.pagesFetched)
    requires sent == Pages(p.page, f.next - pos)
    ensures PageStep(e, a, iso, t, pos, p, f) == UpsertPage(e, a, iso, t, p, response, PostRows(response.posts), sent, f.sleeps, f.next)
  {
    assert PageStep(e, a, iso, t, pos, p, f) == AfterFetch(e, a, iso, t, pos, p, f);
  }

  /** The page loop from call number `pos`, tables `t` and counters `p`: the fetcher's
      `k`-th call gives `fetch(k)`, and every call from `bound` on fails. */
  function SyncFrom(e: SyncEnv, a: SyncArgs, iso: string, fetch: nat -> Result<TopPostsResponse, GrowiApiError>, bound: nat,
                    t: Tables, pos: nat, p: Progress): SyncRun
    requires GrowiSync.FailsFrom(fetch, bound) && pos <= bound
    decreases bound - pos
  {
    var f := TryWithRetry(fetch, e.policy, pos, 1);
    if f.result.Ok? then TryWithRetryOkBefore(fetch, e.policy, pos, bound); SyncAfter(e, a, iso, fetch, bound, t, pos, p, f)
    else SyncAfter(e, a, iso, fetch, bound, t, pos, p, f)
  }

  function SyncAfter(e: SyncEnv, a: SyncArgs, iso: string, fetch: nat -> Result<TopPostsResponse, GrowiApiError>, bound: nat,
                     t: Tables, pos: nat, p: Progress, f: GrowiSync.Fetched<TopPostsResponse>): SyncRun
    requires GrowiSync.FailsFrom(fetch, bound) && pos < f.next && (f.result.Ok? ==> f.next <= bound)
    decreases bound - pos, 0
  {
    match PageStep(e, a, iso, t, pos, p, f)
    case Stop(result, after, requested, sleeps) => SyncRun(result, after, requested, sleeps)
    case Continue(after, requested, sleeps, next, q) => Prepend(requested, sleeps, SyncFrom(e, a, iso, fetch, bound, after, next, q))
  }

  /** `SyncFrom` is its first turn followed by the rest of the run. */
  lemma {:induction false} SyncFromStep(e: SyncEnv, a: SyncArgs, iso: string, fetch: nat -> Result<TopPostsResponse, GrowiApiError>,
                                        bound: nat, t: Tables, pos: nat, p: Progress)
    requires GrowiSync.FailsFrom(fetch, bound) && pos <= bound
    ensures var s := PageStep(e, a, iso, t, pos, p, TryWithRetry(fetch, e.policy, pos, 1));
            && (s.Stop? ==> SyncFrom(e, a, iso, fetch, bound, t, pos, p) == SyncRun(s.result, s.tables, s.requested, s.sleeps))
            && (s.Continue? ==> pos < s.next <= bound)
            && (s.Continue? ==>
                  SyncFrom(e, a, iso, fetch, bound, t, pos, p)
                  == Prepend(s.requested, s.sleeps, SyncFrom(e, a, iso, fetch, bound, s.tables, s.next, s.progress)))
  {
    var f := TryWithRetry(fetch, e.policy, pos, 1);
    if f.result.Ok? {
      TryWithRetryOkBefore(fetch, e.policy, pos, bound);
    }
    assert SyncFrom(e, a, iso, fetch, bound, t, pos, p) == SyncAfter(e, a, iso, fetch, bound, t, pos, p, f);
  }

  /** Prepending twice is prepending the concatenations. */
  lemma {:induction false} PrependTwice(r1: seq<nat>, s1: seq<nat>, r2: seq<nat>, s2: seq<nat>, run: SyncRun)
    ensures Prepend(r1, s1, Prepend(r2, s2, run)) == Prepend(r1 + r2, s1 + s2, run)
  {
    assert r1 + (r2 + run.requested) == (r1 + r2) + run.requested;
    assert s1 + (s2 + run.sleeps) == (s1 + s2) + run.sleeps;
  }

  /** The whole run against the scripted partner API: a key that is not a string or is
      blank fails before any request; otherwise the page loop from page 1. */
  function Sync(t: Tables, e: SyncEnv, a: SyncArgs): (run: SyncRun)
    ensures GetGrowiPublicApiConfig(e.publicApiKey).Err? ==>
              run == SyncRun(Err(ConfigFailure(GrowiApiError(0, "Invalid Growi public API config"))), t, [], [])
  {
    match GetGrowiPublicApiConfig(e.publicApiKey)
    case Err(error) => SyncRun(Err(ConfigFailure(error)), t, [], [])
    case Ok(_) =>
      ScriptExhausts(e.script);
      SyncFrom(e, a, ToIsoString(e.completedAt), Fetcher(e.script), |e.script.outcomes|, t, 0, Start)
  }

  /** One turn of the loop of `syncGrowiTopPostsByViews` against `store`. */
  method SyncPage(store: GrowiStore, e: SyncEnv, a: SyncArgs, iso: string, fetch: nat -> Result<TopPostsResponse, GrowiApiError>,
                  pos: nat, p: Progress) returns (s: Step)
    modifies store
    ensures s == PageStep(e, a, iso, old(store.Snapshot()), pos, p, TryWithRetry(fetch, e.policy, pos, 1))
    ensures store.Snapshot() == s.tables
  {
    ghost var t := store.Snapshot();
    if GrowiSync.BudgetReached(a.maxPages, p.pagesFetched) {
      return Stop(Ok(Summary(a, p, iso)), store.Snapshot(), [], []);
    }
    var f := TryWithRetry(fetch, e.policy, pos, 1);
    var sent := Pages(p.page, f.next - pos);
    if f.result.Err? {
      return Stop(Err(FetchFailure(f.result.error)), store.Snapshot(), sent, f.sleeps);
    }
    var response := f.result.value;
    PageStepOfPage(e, a, iso, t, pos, p, f, response, sent);
    s := FinishPage(store, e, a, iso, p, response, PostRows(response.posts), sent, f.sleeps, f.next);
  }

  /** The upsert of a fetched page and the decision that follows it. */
  method FinishPage(store: GrowiStore, e: SyncEnv, a: SyncArgs, iso: string, p: Progress, response: TopPostsResponse,
                    rows: seq<UserContentRow>, sent: seq<nat>, slept: seq<nat>, next: nat) returns (s: Step)
    modifies store
    ensures s == UpsertPage(e, a, iso, old(store.Snapshot()), p, response, rows, sent, slept, next)
    ensures store.Snapshot() == s.tables
  {
    var q := Progress(p.page, p.pagesFetched + 1, p.rowsFetched + |rows|, response.meta.rowCount, response.meta.pageCount);
    var upserted := UpsertGrowiPage(store, rows, e.clock(p.pagesFetched), e.host);
    if upserted.Err? {
      return Stop(Err(upserted.error), store.Snapshot(), sent, slept);
    }
    if LastPage(response) {
      return Stop(Ok(Summary(a, q, iso)), store.Snapshot(), sent, slept);
    }
    return Continue(store.Snapshot(), sent, slept + [PageDelayMs], next, q.(page := q.page + 1));
  }

  /** The page loop of `syncGrowiTopPostsByViews`, from page 1, against any fetcher whose
      calls fail from `bound` on. */
  method SyncPages(store: GrowiStore, e: SyncEnv, a: SyncArgs, iso: string, fetch: nat -> Result<TopPostsResponse, GrowiApiError>,
                   bound: nat)
    returns (result: Result<SyncSummary, AppError>, requested: seq<nat>, sleeps: seq<nat>)
    requires GrowiSync.FailsFrom(fetch, bound)
    modifies store
    ensures SyncRun(result, store.Snapshot(), requested, sleeps) == SyncFrom(e, a, iso, fetch, bound, old(store.Snapshot()), 0, Start)
  {
    var p := Start;
    var pos := 0;
    requested, sleeps := [], [];
    result := Ok(Summary(a, p, iso));
    var done := false;
    ghost var spec := SyncFrom(e, a, iso, fetch, bound, store.Snapshot(), 0, Start);
    while !done
      invariant pos <= bound
      invariant !done ==> Prepend(requested, sleeps, SyncFrom(e, a, iso, fetch, bound, store.Snapshot(), pos, p)) == spec
      invariant done ==> SyncRun(result, store.Snapshot(), requested, sleeps) == spec
      decreases !done, bound - pos
    {
      SyncFromStep(e, a, iso, fetch, bound, store.Snapshot(), pos, p);
      var step := SyncPage(store, e, a, iso, fetch, pos, p);
      if step.Stop? {
        result, done := step.result, true;
        requested, sleeps := requested + step.requested, sleeps + step.sleeps;
      } else {
        PrependTwice(requested, sleeps, step.requested, step.sleeps, SyncFrom(e, a, iso, fetch, bound, step.tables, step.next, step.progress));
        requested, sleeps := requested + step.requested, sleeps + step.sleeps;
        pos, p := step.next, step.progress;
      }
    }
  }

  /** `syncGrowiTopPostsByViews(db, args)`: the configuration, then the page loop against
      the partner API, upserting each page into `store` as it arrives. */
  method SyncGrowiTopPostsByViews(store: GrowiStore, e: SyncEnv, a: SyncArgs)
    returns (result: Result<SyncSummary, AppError>, requested: seq<nat>, sleeps: seq<nat>)
    modifies store
    ensures SyncRun(result, store.Snapshot(), requested, sleeps) == Sync(old(store.Snapshot()), e, a)
  {
    var config := GetGrowiPublicApiConfig(e.publicApiKey);
    if config.Err? {
      return Err(ConfigFailure(config.error)), [], [];
    }
    var iso := ToIsoString(e.completedAt);
    ScriptExhausts(e.script);
    result, requested, sleeps := SyncPages(store, e, a, iso, Fetcher(e.script), |e.script.outcomes|);
  }
}
