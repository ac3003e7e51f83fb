/** What a run of `syncGrowiTopPostsByViews` promises, proved about the page loop for any
    fetcher and any retry policy, and then for the scripted partner API. */
module GrowiPublicSyncProperties {
  import opened Wrappers
  import opened JsText
  import opened JsNumber
  import opened JsValue
  import opened JsDate
  import opened JsThrown
  import opened GrowiApi
  import opened GrowiPrivateClient
  import opened GrowiPublicClient
  import opened GrowiDb
  import opened GrowiRepository
  import opened LegacyErrors
  import opened GrowiPublicSync
  import GrowiSync

  type Fetch = nat -> Result<TopPostsResponse, GrowiApiError>

  // ---- What is retried ----

  lemma {:induction false} LowerRequestTimeout()
    ensures LowerAscii("Request Timeout") == "request timeout"
  {
  }

  /** Failed requests, rate limiting and server errors are retried, and so is a 422 that
      reports a request timeout in any letter case; other client errors are final. */
  lemma {:induction false} RetryPolicyCases(message: string)
    ensures ShouldRetryGrowiError(GrowiApiError(0, message))
    ensures ShouldRetryGrowiError(GrowiApiError(429, message))
    ensures ShouldRetryGrowiError(GrowiApiError(503, message))
    ensures !ShouldRetryGrowiError(GrowiApiError(404, message))
    ensures !ShouldRetryGrowiError(GrowiApiError(422, ""))
    ensures ShouldRetryGrowiError(GrowiApiError(422, "Request Timeout"))
  {
    LowerRequestTimeout();
    assert OccursAt("request timeout", "request timeout", 0);
  }

  // ---- Rows ----

  /** A public post is stored with `null` for every column the public shape does not
      carry, never with a zero or an empty string, and its raw JSON is tagged with its
      source. */
  lemma {:induction false} PublicRowLeavesNulls(post: TopPost, now: TimeValue, host: Host)
    ensures var np := ToNewPost(ToInternalPostRow(post), now, host);
            && np.growiPostId == post.id as real && np.shareUrl == post.shareUrl
            && np.connectedAccountId.None? && np.connectedAccountUsername == post.username
            && np.campaignId.None? && np.campaignName.None? && np.createTime.None? && np.updatedAt.None?
            && Get(np.rawJson, "raw_source") == Str(RawSource)
    ensures var nm := ToNewMetric(ToInternalPostRow(post), now, host);
            && nm.viewCount == post.metrics.views as real && nm.likeCount == post.metrics.likes as real
            && nm.commentCount == post.metrics.comments as real && nm.shareCount == post.metrics.shares as real
            && nm.savesCount.None? && nm.engagementRate.None? && nm.engagementValue.None?
  {
  }

  // ---- The tables stay consistent ----

  lemma {:induction false} PageStepKeepsConsistent(e: SyncEnv, a: SyncArgs, iso: string, t: Tables, pos: nat, p: Progress,
                                                   f: GrowiSync.Fetched<TopPostsResponse>)
    requires pos < f.next && Consistent(t)
    ensures Consistent(PageStep(e, a, iso, t, pos, p, f).tables)
  {
    if !GrowiSync.BudgetReached(a.maxPages, p.pagesFetched) && f.result.Ok? {
      UpsertKeepsConsistent(t, PostRows(f.result.value.posts), e.clock(p.pagesFetched), e.host);
    }
  }

  lemma {:induction false} SyncFromKeepsConsistent(e: SyncEnv, a: SyncArgs, iso: string, fetch: Fetch, bound: nat,
                                                   t: Tables, pos: nat, p: Progress)
    requires GrowiSync.FailsFrom(fetch, bound) && pos <= bound && Consistent(t)
    ensures Consistent(SyncFrom(e, a, iso, fetch, bound, t, pos, p).tables)
    decreases bound - pos
  {
    SyncFromStep(e, a, iso, fetch, bound, t, pos, p);
    var s := PageStep(e, a, iso, t, pos, p, TryWithRetry(fetch, e.policy, pos, 1));
    PageStepKeepsConsistent(e, a, iso, t, pos, p, TryWithRetry(fetch, e.policy, pos, 1));
    if s.Continue? {
      SyncFromKeepsConsistent(e, a, iso, fetch, bound, s.tables, s.next, s.progress);
    }
  }

  /** A run, whether it succeeds or fails part-way, keeps every constraint of the
      schema: each page is one transaction. */
  lemma {:induction false} SyncKeepsConsistent(t: Tables, e: SyncEnv, a: SyncArgs)
    requires Consistent(t)
    ensures Consistent(Sync(t, e, a).tables)
  {
    if GetGrowiPublicApiConfig(e.publicApiKey).Ok? {
      ScriptExhausts(e.script);
      SyncFromKeepsConsistent(e, a, ToIsoString(e.completedAt), Fetcher(e.script), |e.script.outcomes|, t, 0, Start);
    }
  }

  // ---- When the loop goes on ----

  /** A turn goes on exactly when the budget allows a fetch, the page arrives, its upsert
      commits and it is not the last page; then it asks for the next page number, the
      counters take the page in, and the turn ends with the 2200 ms pause. */
  lemma {:induction false} StopRule(e: SyncEnv, a: SyncArgs, iso: string, t: Tables, pos: nat, p: Progress,
                                    f: GrowiSync.Fetched<TopPostsResponse>)
    requires pos < f.next
    ensures var s := PageStep(e, a, iso, t, pos, p, f);
            s.Continue? <==>
              && !GrowiSync.BudgetReached(a.maxPages, p.pagesFetched) && f.result.Ok?
              && Upsert(t, PostRows(f.result.value.posts), e.clock(p.pagesFetched), e.host).result.Ok?
              && !LastPage(f.result.value)
    ensures var s := PageStep(e, a, iso, t, pos, p, f);
            s.Continue? ==>
              && s.progress == Progress(p.page + 1, p.pagesFetched + 1, p.rowsFetched + |f.result.value.posts|,
                                        f.result.value.meta.rowCount, f.result.value.meta.pageCount)
              && s.sleeps == f.sleeps + [PageDelayMs]
              && s.requested == Pages(p.page, f.next - pos)
  {
    if !GrowiSync.BudgetReached(a.maxPages, p.pagesFetched) && f.result.Ok? {
      PageStepOfPage(e, a, iso, t, pos, p, f, f.result.value, Pages(p.page, f.next - pos));
    }
  }

  // ---- The delays slept ----

  /** The pause between pages, or a delay of the retry policy before one of its retries. */
  ghost predicate Pause(policy: RetryPolicy, d: nat) {
    d == PageDelayMs || exists k :: 1 <= k <= policy.times && d == policy.delay(k)
  }

  ghost predicate AllPauses(policy: RetryPolicy, ds: seq<nat>) {
    forall i :: 0 <= i < |ds| ==> Pause(policy, ds[i])
  }

  lemma {:induction false} AllPausesAppend(policy: RetryPolicy, xs: seq<nat>, ys: seq<nat>)
    requires AllPauses(policy, xs) && AllPauses(policy, ys)
    ensures AllPauses(policy, xs + ys)
  {
    forall i | 0 <= i < |xs + ys| ensures Pause(policy, (xs + ys)[i]) {
      if i >= |xs| {
        assert (xs + ys)[i] == ys[i - |xs|];
      }
    }
  }

  lemma {:induction false} RetrySleepsArePauses(fetch: Fetch, policy: RetryPolicy, pos: nat)
    ensures AllPauses(policy, TryWithRetry(fetch, policy, pos, 1).sleeps)
  {
    var f := TryWithRetry(fetch, policy, pos, 1);
    TryWithRetrySleeps(fetch, policy, pos, 1);
    forall i | 0 <= i < |f.sleeps| ensures Pause(policy, f.sleeps[i]) {
      assert 1 <= 1 + i <= policy.times && f.sleeps[i] == policy.delay(1 + i);
    }
  }

  lemma {:induction false} PageStepSleepsArePauses(e: SyncEnv, a: SyncArgs, iso: string, t: Tables, pos: nat, p: Progress, fetch: Fetch)
    ensures AllPauses(e.policy, PageStep(e, a, iso, t, pos, p, TryWithRetry(fetch, e.policy, pos, 1)).sleeps)
  {
    var f := TryWithRetry(fetch, e.policy, pos, 1);
    RetrySleepsArePauses(fetch, e.policy, pos);
    if !GrowiSync.BudgetReached(a.maxPages, p.pagesFetched) && f.result.Ok? {
      PageStepOfPage(e, a, iso, t, pos, p, f, f.result.value, Pages(p.page, f.next - pos));
      assert Pause(e.policy, PageDelayMs);
      AllPausesAppend(e.policy, f.sleeps, [PageDelayMs]);
    }
  }

  lemma {:induction false} SyncFromSleepsArePauses(e: SyncEnv, a: SyncArgs, iso: string, fetch: Fetch, bound: nat,
                                                   t: Tables, pos: nat, p: Progress)
    requires GrowiSync.FailsFrom(fetch, bound) && pos <= bound
    ensures AllPauses(e.policy, SyncFrom(e, a, iso, fetch, bound, t, pos, p).sleeps)
    decreases bound - pos
  {
    SyncFromStep(e, a, iso, fetch, bound, t, pos, p);
    var s := PageStep(e, a, iso, t, pos, p, TryWithRetry(fetch, e.policy, pos, 1));
    PageStepSleepsArePauses(e, a, iso, t, pos, p, fetch);
    if s.Continue? {
      SyncFromSleepsArePauses(e, a, iso, fetch, bound, s.tables, s.next, s.progress);
      AllPausesAppend(e.policy, s.sleeps, SyncFrom(e, a, iso, fetch, bound, s.tables, s.next, s.progress).sleeps);
    }
  }

  /** Every delay of a run is the 2200 ms pause between pages or one of the retry
      policy's delays. */
  lemma {:induction false} SyncSleepsArePauses(t: Tables, e: SyncEnv, a: SyncArgs)
    ensures AllPauses(e.policy, Sync(t, e, a).sleeps)
  {
    if GetGrowiPublicApiConfig(e.publicApiKey).Ok? {
      ScriptExhausts(e.script);
      SyncFromSleepsArePauses(e, a, ToIsoString(e.completedAt), Fetcher(e.script), |e.script.outcomes|, t, 0, Start);
    }
  }

  // ---- The pages asked for ----

  /** A sequence of page numbers that starts at `page` and only ever stays or goes up by one. */
  predicate Advancing(s: seq<nat>, page: nat)
    decreases |s|
  {
    s == [] || (s[0] == page && (Advancing(s[1..], page) || Advancing(s[1..], page + 1)))
  }

  /** Repeated requests for one page, then requests that go on from it or from the next one. */
  lemma {:induction false} AdvancingPages(page: nat, n: nat, rest: seq<nat>)
    requires n >= 1 && (Advancing(rest, page) || Advancing(rest, page + 1))
    ensures Advancing(Pages(page, n) + rest, page)
    decreases n
  {
    var s := Pages(page, n) + rest;
    if n == 1 {
      assert s[1..] == rest;
    } else {
      AdvancingPages(page, n - 1, rest);
      assert s[1..] == Pages(page, n - 1) + rest;
    }
  }

  // ---- Errors, summaries and request counts ----

  /** Every failure of a page loop is a `DbQueryError`: the fetch's, wrapping the error of
      the last attempt, or the upsert's, passed through as it is. */
  predicate SyncError(err: AppError) {
    err.DbQueryError? && (err.operation == FetchOperation || err.operation == UpsertOperation)
  }

  /** What a run that succeeds reports about run `p0` onwards: the arguments, the end
      time, and between one and `attempts` requests for every page it fetched. */
  predicate OkReport(a: SyncArgs, iso: string, attempts: nat, p0: Progress, summary: SyncSummary, requested: nat) {
    && summary.startDate == a.startDate && summary.endDate == a.endDate && summary.limit == a.limit
    && summary.perPage == a.perPage && summary.includeGmv == a.includeGmv && summary.completedAt == iso
    && p0.pagesFetched <= summary.pagesFetched
    && summary.pagesFetched - p0.pagesFetched <= requested <= MostRequests(attempts, summary.pagesFetched - p0.pagesFetched)
  }

  /** The most requests `pages` pages can take, `attempts` each, summed page by page. */
  function MostRequests(attempts: nat, pages: nat): nat
    decreases pages
  {
    if pages == 0 then 0 else MostRequests(attempts, pages - 1) + attempts
  }

  lemma {:induction false} MostRequestsIsProduct(attempts: nat, pages: nat)
    ensures MostRequests(attempts, pages) == attempts * pages
    decreases pages
  {
    if pages > 0 {
      MostRequestsIsProduct(attempts, pages - 1);
      assert attempts * pages == attempts * (pages - 1) + attempts;
    }
  }

  /** Under a finite positive `maxPages`, the pages fetched stay below one more than the budget. */
  predicate WithinBudget(a: SyncArgs, pagesFetched: nat) {
    a.maxPages.Some? && a.maxPages.value.Finite? && a.maxPages.value.value > 0.0 ==>
      (pagesFetched as real) < a.maxPages.value.value + 1.0
  }

  /** What one turn gives: its error, the report of a turn that stops with a summary,
      the counters of a turn that goes on, and the pages it asked for. */
  ghost predicate StepFacts(a: SyncArgs, iso: string, attempts: nat, p: Progress, s: Step) {
    && (s.Stop? && s.result.Err? ==> SyncError(s.result.error))
    && (s.Stop? && s.result.Ok? ==> OkReport(a, iso, attempts, p, s.result.value, |s.requested|)
                                    && WithinBudget(a, s.result.value.pagesFetched))
    && (s.Stop? ==> s.requested == [] || s.requested == Pages(p.page, |s.requested|))
    && (s.Continue? ==> && s.progress.pagesFetched == p.pagesFetched + 1 && s.progress.page == p.page + 1
                        && 1 <= |s.requested| <= attempts && s.requested == Pages(p.page, |s.requested|)
                        && WithinBudget(a, s.progress.pagesFetched))
  }

  lemma {:induction false} UpsertPageFacts(e: SyncEnv, a: SyncArgs, iso: string, attempts: nat, t: Tables, p: Progress,
                                           response: TopPostsResponse, rows: seq<UserContentRow>,
                                           requested: seq<nat>, sleeps: seq<nat>, next: nat)
    requires 1 <= |requested| <= attempts && requested == Pages(p.page, |requested|)
    requires WithinBudget(a, p.pagesFetched + 1)
    ensures StepFacts(a, iso, attempts, p, UpsertPage(e, a, iso, t, p, response, rows, requested, sleeps, next))
  {
  }

  lemma {:induction false} PageStepFacts(e: SyncEnv, a: SyncArgs, iso: string, t: Tables, pos: nat, p: Progress, fetch: Fetch)
    requires WithinBudget(a, p.pagesFetched)
    ensures StepFacts(a, iso, e.policy.times + 1, p, PageStep(e, a, iso, t, pos, p, TryWithRetry(fetch, e.policy, pos, 1)))
  {
    var f := TryWithRetry(fetch, e.policy, pos, 1);
    TryWithRetrySleeps(fetch, e.policy, pos, 1);
    var sent := Pages(p.page, f.next - pos);
    if !GrowiSync.BudgetReached(a.maxPages, p.pagesFetched) && f.result.Ok? {
      PageStepOfPage(e, a, iso, t, pos, p, f, f.result.value, sent);
      if a.maxPages.Some? && a.maxPages.value.Finite? && a.maxPages.value.value > 0.0 {
        assert Truthy(Num(a.maxPages.value));
      }
      UpsertPageFacts(e, a, iso, e.policy.times + 1, t, p, f.result.value, PostRows(f.result.value.posts), sent, f.sleeps, f.next);
    } else if !GrowiSync.BudgetReached(a.maxPages, p.pagesFetched) {
      assert PageStep(e, a, iso, t, pos, p, f) == AfterFetch(e, a, iso, t, pos, p, f);
    }
  }

  /** Everything a run from `p` reports: a failure is a `DbQueryError`; a success reports
      the arguments, the end time, the request counts and the budget; and the pages it
      asks for start at `p.page` and go up one at a time. */
  ghost predicate RunFacts(a: SyncArgs, iso: string, attempts: nat, p: Progress, run: SyncRun) {
    && (run.result.Err? ==> SyncError(run.result.error))
    && (run.result.Ok? ==> OkReport(a, iso, attempts, p, run.result.value, |run.requested|)
                           && WithinBudget(a, run.result.value.pagesFetched))
    && Advancing(run.requested, p.page)
  }

  lemma {:induction false} RunFactsPrepend(a: SyncArgs, iso: string, attempts: nat, p: Progress, q: Progress,
                                           requested: seq<nat>, sleeps: seq<nat>, run: SyncRun)
    requires q.pagesFetched == p.pagesFetched + 1 && q.page == p.page + 1
    requires 1 <= |requested| <= attempts && requested == Pages(p.page, |requested|)
    requires RunFacts(a, iso, attempts, q, run)
    ensures RunFacts(a, iso, attempts, p, Prepend(requested, sleeps, run))
  {
    AdvancingPages(p.page, |requested|, run.requested);
    if run.result.Ok? {
      var n := run.result.value.pagesFetched - q.pagesFetched;
      assert n + 1 == run.result.value.pagesFetched - p.pagesFetched;
      assert MostRequests(attempts, n + 1) == MostRequests(attempts, n) + attempts;
    }
  }

  /** A run's facts from the facts of its first turn and, when it goes on, of the rest. */
  lemma {:induction false} RunFactsOfTurn(a: SyncArgs, iso: string, attempts: nat, p: Progress, s: Step, rest: SyncRun, run: SyncRun)
    requires StepFacts(a, iso, attempts, p, s)
    requires s.Stop? ==> run == SyncRun(s.result, s.tables, s.requested, s.sleeps)
    requires s.Continue? ==> run == Prepend(s.requested, s.sleeps, rest) && RunFacts(a, iso, attempts, s.progress, rest)
    ensures RunFacts(a, iso, attempts, p, run)
  {
    if s.Continue? {
      RunFactsPrepend(a, iso, attempts, p, s.progress, s.requested, s.sleeps, rest);
    } else if s.requested != [] {
      AdvancingPages(p.page, |s.requested|, []);
      assert s.requested + [] == s.requested;
    }
  }

  /** One turn of the page loop from `pos`, named so that the run's facts need not look
      inside it: what the turn gives, and how the run continues from it. */
  lemma {:induction false} Turn(e: SyncEnv, a: SyncArgs, iso: string, fetch: Fetch, bound: nat, t: Tables, pos: nat, p: Progress)
    returns (s: Step)
    requires GrowiSync.FailsFrom(fetch, bound) && pos <= bound && WithinBudget(a, p.pagesFetched)
    ensures StepFacts(a, iso, e.policy.times + 1, p, s)
    ensures s.Stop? ==> SyncFrom(e, a, iso, fetch, bound, t, pos, p) == SyncRun(s.result, s.tables, s.requested, s.sleeps)
    ensures s.Continue? ==> pos < s.next <= bound
    ensures s.Continue? ==>
              SyncFrom(e, a, iso, fetch, bound, t, pos, p)
              == Prepend(s.requested, s.sleeps, SyncFrom(e, a, iso, fetch, bound, s.tables, s.next, s.progress))
  {
    SyncFromStep(e, a, iso, fetch, bound, t, pos, p);
    s := PageStep(e, a, iso, t, pos, p, TryWithRetry(fetch, e.policy, pos, 1));
    PageStepFacts(e, a, iso, t, pos, p, fetch);
  }

  lemma {:induction false} SyncFromFacts(e: SyncEnv, a: SyncArgs, iso: string, fetch: Fetch, bound: nat,
                                         t: Tables, pos: nat, p: Progress)
    requires GrowiSync.FailsFrom(fetch, bound) && pos <= bound && WithinBudget(a, p.pagesFetched)
    ensures RunFacts(a, iso, e.policy.times + 1, p, SyncFrom(e, a, iso, fetch, bound, t, pos, p))
    decreases bound - pos
  {
    var s := Turn(e, a, iso, fetch, bound, t, pos, p);
    var run := SyncFrom(e, a, iso, fetch, bound, t, pos, p);
    if s.Continue? {
      var rest := SyncFrom(e, a, iso, fetch, bound, s.tables, s.next, s.progress);
      SyncFromFacts(e, a, iso, fetch, bound, s.tables, s.next, s.progress);
      RunFactsOfTurn(a, iso, e.policy.times + 1, p, s, rest, run);
    } else {
      RunFactsOfTurn(a, iso, e.policy.times + 1, p, s, run, run);
    }
  }

  // ---- What a run fetched and stored ----

  /** The posts of `pages`, counted. */
  function RowsIn(pages: seq<TopPostsResponse>): nat {
    if pages == [] then 0 else |pages[0].posts| + RowsIn(pages[1..])
  }

  /** Every post of every page in `pages` is keyed, as its row, in both tables. */
  predicate PagesStored(t: Tables, pages: seq<TopPostsResponse>) {
    forall i :: 0 <= i < |pages| ==> RowsStored(t, PostRows(pages[i].posts))
  }

  /** The `rowCount` and `pageCount` of summary `s`: the last page's meta, or the counters
      `p` the run started from when it fetched no page. */
  predicate MetaOfLast(p: Progress, pages: seq<TopPostsResponse>, s: SyncSummary) {
    if pages == [] then s.rowCount == p.rowCount && s.pageCount == p.pageCount
    else s.rowCount == pages[|pages| - 1].meta.rowCount && s.pageCount == pages[|pages| - 1].meta.pageCount
  }

  /** What a run from call number `pos`, counters `p` and tables `t` fetched and stored:
      the tables lose no key, and a run that succeeds counts exactly the pages its calls
      returned and their posts, reports the last page's `rowCount` and `pageCount`, and
      leaves every post of those pages in both tables. */
  ghost predicate Totals(fetch: Fetch, pos: nat, p: Progress, t: Tables, run: SyncRun) {
    var pages := GrowiSync.PagesIn(fetch, pos, pos + |run.requested|);
    && KeysKept(t, run.tables)
    && (run.result.Ok? ==>
          && run.result.value.pagesFetched == p.pagesFetched + |pages|
          && run.result.value.rowsFetched == p.rowsFetched + RowsIn(pages)
          && MetaOfLast(p, pages, run.result.value)
          && PagesStored(run.tables, pages))
  }

  /** The totals of one turn: a turn that goes on fetched one page, counted it, took its
      meta and stored its posts. */
  ghost predicate StepTotals(fetch: Fetch, pos: nat, p: Progress, t: Tables, s: Step) {
    && (s.Stop? ==> Totals(fetch, pos, p, t, SyncRun(s.result, s.tables, s.requested, s.sleeps)))
    && (s.Continue? ==>
          var pages := GrowiSync.PagesIn(fetch, pos, s.next);
          && s.next == pos + |s.requested| && |pages| == 1
          && s.progress.pagesFetched == p.pagesFetched + 1
          && s.progress.rowsFetched == p.rowsFetched + |pages[0].posts|
          && s.progress.rowCount == pages[0].meta.rowCount && s.progress.pageCount == pages[0].meta.pageCount
          && KeysKept(t, s.tables) && RowsStored(s.tables, PostRows(pages[0].posts)))
  }

  /** The calls one retried fetch makes return at most one page: its result. */
  lemma {:induction false} TryWithRetryPages(fetch: Fetch, policy: RetryPolicy, pos: nat)
    ensures var f := TryWithRetry(fetch, policy, pos, 1);
            GrowiSync.PagesIn(fetch, pos, f.next) == (if f.result.Ok? then [f.result.value] else [])
  {
    var f := TryWithRetry(fetch, policy, pos, 1);
    TryWithRetryResult(fetch, policy, pos, 1);
    forall j: nat | pos <= j < f.next - 1 ensures fetch(j).Err? {
      TryWithRetryRetriedOnlyRetryable(fetch, policy, pos, 1, j);
    }
    GrowiSync.PagesInNone(fetch, pos, f.next - 1);
    GrowiSync.PagesInSplit(fetch, pos, f.next - 1, f.next);
    assert GrowiSync.PagesIn(fetch, f.next - 1, f.next)
        == (if fetch(f.next - 1).Ok? then [fetch(f.next - 1).value] else []) + GrowiSync.PagesIn(fetch, f.next, f.next);
  }

  lemma {:induction false} UpsertPageTotals(e: SyncEnv, a: SyncArgs, iso: string, t: Tables, p: Progress, response: TopPostsResponse,
                                            requested: seq<nat>, sleeps: seq<nat>, next: nat, fetch: Fetch, pos: nat)
    requires next == pos + |requested| && GrowiSync.PagesIn(fetch, pos, next) == [response]
    ensures StepTotals(fetch, pos, p, t, UpsertPage(e, a, iso, t, p, response, PostRows(response.posts), requested, sleeps, next))
  {
    var rows := PostRows(response.posts);
    var q := Progress(p.page, p.pagesFetched + 1, p.rowsFetched + |rows|, response.meta.rowCount, response.meta.pageCount);
    var u := Upsert(t, rows, e.clock(p.pagesFetched), e.host);
    UpsertKeepsKeys(t, rows, e.clock(p.pagesFetched), e.host);
    UpsertPageIs(e, a, iso, t, p, response, rows, requested, sleeps, next);
    AfterUpsertTotals(e, a, iso, t, p, response, q, u, requested, sleeps, next, fetch, pos);
  }

  lemma {:induction false} UpsertPageIs(e: SyncEnv, a: SyncArgs, iso: string, t: Tables, p: Progress, response: TopPostsResponse,
                                        rows: seq<UserContentRow>, requested: seq<nat>, sleeps: seq<nat>, next: nat)
    ensures UpsertPage(e, a, iso, t, p, response, rows, requested, sleeps, next)
            == AfterUpsert(e, a, iso, t, response,
                           Progress(p.page, p.pagesFetched + 1, p.rowsFetched + |rows|, response.meta.rowCount, response.meta.pageCount),
                           Upsert(t, rows, e.clock(p.pagesFetched), e.host), requested, sleeps, next)
  {
    var q := Progress(p.page, p.pagesFetched + 1, p.rowsFetched + |rows|, response.meta.rowCount, response.meta.pageCount);
    var u := Upsert(t, rows, e.clock(p.pagesFetched), e.host);
    assert UpsertPage(e, a, iso, t, p, response, rows, requested, sleeps, next) == AfterUpsert(e, a, iso, t, response, q, u, requested, sleeps, next);
  }

  lemma {:induction false} AfterUpsertTotals(e: SyncEnv, a: SyncArgs, iso: string, t: Tables, p: Progress, response: TopPostsResponse,
                                             q: Progress, u: UpsertOutcome, requested: seq<nat>, sleeps: seq<nat>, next: nat,
                                             fetch: Fetch, pos: nat)
    requires next == pos + |requested| && GrowiSync.PagesIn(fetch, pos, next) == [response]
    requires q == Progress(p.page, p.pagesFetched + 1, p.rowsFetched + |response.posts|, response.meta.rowCount, response.meta.pageCount)
    requires KeysKept(t, u.tables) && (u.result.Ok? ==> RowsStored(u.tables, PostRows(response.posts)))
    ensures StepTotals(fetch, pos, p, t, AfterUpsert(e, a, iso, t, response, q, u, requested, sleeps, next))
  {
    assert [response][1..] == [];
    assert RowsIn([response]) == |response.posts|;
  }

  lemma {:induction false} PageStepTotals(e: SyncEnv, a: SyncArgs, iso: string, t: Tables, pos: nat, p: Progress, fetch: Fetch)
    ensures StepTotals(fetch, pos, p, t, PageStep(e, a, iso, t, pos, p, TryWithRetry(fetch, e.policy, pos, 1)))
  {
    var f := TryWithRetry(fetch, e.policy, pos, 1);
    if GrowiSync.BudgetReached(a.maxPages, p.pagesFetched) {
      assert GrowiSync.PagesIn(fetch, pos, pos) == [];
    } else {
      TryWithRetryPages(fetch, e.policy, pos);
      var sent := Pages(p.page, f.next - pos);
      if f.result.Ok? {
        PageStepOfPage(e, a, iso, t, pos, p, f, f.result.value, sent);
        UpsertPageTotals(e, a, iso, t, p, f.result.value, sent, f.sleeps, f.next, fetch, pos);
      } else {
        assert PageStep(e, a, iso, t, pos, p, f) == AfterFetch(e, a, iso, t, pos, p, f);
      }
    }
  }

  /** The pages of a turn followed by the pages of the rest of the run. */
  lemma {:induction false} PagesCons(p: Progress, q: Progress, u: Tables, head: seq<TopPostsResponse>, rest: seq<TopPostsResponse>, s: SyncSummary)
    requires |head| == 1
    ensures RowsIn(head + rest) == |head[0].posts| + RowsIn(rest)
    ensures RowsStored(u, PostRows(head[0].posts)) && PagesStored(u, rest) ==> PagesStored(u, head + rest)
    ensures q.rowCount == head[0].meta.rowCount && q.pageCount == head[0].meta.pageCount && MetaOfLast(q, rest, s)
            ==> MetaOfLast(p, head + rest, s)
  {
    var pages := head + rest;
    assert pages[1..] == rest;
    if rest != [] {
      assert pages[|pages| - 1] == rest[|rest| - 1];
    }
    if RowsStored(u, PostRows(head[0].posts)) && PagesStored(u, rest) {
      forall i | 0 <= i < |pages| ensures RowsStored(u, PostRows(pages[i].posts)) {
        if i > 0 {
          assert pages[i] == rest[i - 1];
        }
      }
    }
  }

  lemma {:induction false} TotalsPrepend(fetch: Fetch, pos: nat, p: Progress, t: Tables, s: Step, run: SyncRun)
    requires s.Continue? && StepTotals(fetch, pos, p, t, s)
    requires Totals(fetch, s.next, s.progress, s.tables, run)
    ensures Totals(fetch, pos, p, t, Prepend(s.requested, s.sleeps, run))
  {
    var whole := Prepend(s.requested, s.sleeps, run);
    var head := GrowiSync.PagesIn(fetch, pos, s.next);
    var rest := GrowiSync.PagesIn(fetch, s.next, s.next + |run.requested|);
    GrowiSync.PagesInSplit(fetch, pos, s.next, s.next + |run.requested|);
    assert pos + |whole.requested| == s.next + |run.requested|;
    if run.result.Ok? {
      PagesCons(p, s.progress, run.tables, head, rest, run.result.value);
    }
  }

  lemma {:induction false} SyncFromTotals(e: SyncEnv, a: SyncArgs, iso: string, fetch: Fetch, bound: nat,
                                          t: Tables, pos: nat, p: Progress)
    requires GrowiSync.FailsFrom(fetch, bound) && pos <= bound
    ensures Totals(fetch, pos, p, t, SyncFrom(e, a, iso, fetch, bound, t, pos, p))
    decreases bound - pos
  {
    SyncFromStep(e, a, iso, fetch, bound, t, pos, p);
    var s := PageStep(e, a, iso, t, pos, p, TryWithRetry(fetch, e.policy, pos, 1));
    PageStepTotals(e, a, iso, t, pos, p, fetch);
    if s.Continue? {
      SyncFromTotals(e, a, iso, fetch, bound, s.tables, s.next, s.progress);
      TotalsPrepend(fetch, pos, p, t, s, SyncFrom(e, a, iso, fetch, bound, s.tables, s.next, s.progress));
    }
  }

  /** A run fails with the configuration's `DbQueryError` or with one of the page loop.
      A run that succeeds echoes its arguments, reports the ISO text of its end, made
      between one and `times + 1` requests for each page it fetched, and fetched fewer
      than `maxPages + 1` pages when `maxPages` is a positive number. The pages asked
      for start at 1 and go up by one at a time. Whatever the outcome the tables lose no
      key; on success `pagesFetched` and `rowsFetched` count the pages the partner API
      returned to the run's requests and their posts, `rowCount` and `pageCount` are the
      last page's, and every post fetched is keyed in both tables. */
  lemma {:induction false} SyncReport(t: Tables, e: SyncEnv, a: SyncArgs)
    ensures var run := Sync(t, e, a);
            && (run.result.Err? ==> SyncError(run.result.error) || run.result.error == ConfigFailure(GrowiApiError(0, "Invalid Growi public API config")))
            && (run.result.Ok? ==> OkReport(a, ToIsoString(e.completedAt), e.policy.times + 1, Start, run.result.value, |run.requested|))
            && (run.result.Ok? ==> WithinBudget(a, run.result.value.pagesFetched))
            && Advancing(run.requested, 1)
    ensures Totals(Fetcher(e.script), 0, Start, t, Sync(t, e, a))
  {
    if GetGrowiPublicApiConfig(e.publicApiKey).Ok? {
      ScriptExhausts(e.script);
      SyncFromFacts(e, a, ToIsoString(e.completedAt), Fetcher(e.script), |e.script.outcomes|, t, 0, Start);
      SyncFromTotals(e, a, ToIsoString(e.completedAt), Fetcher(e.script), |e.script.outcomes|, t, 0, Start);
    } else {
      assert GrowiSync.PagesIn(Fetcher(e.script), 0, 0) == [];
    }
  }

  // ---- The budget ----

  /** With the budget spent from the start, the run succeeds without a request. */
  lemma {:induction false} SpentBudgetSendsNothing(t: Tables, e: SyncEnv, a: SyncArgs)
    requires GetGrowiPublicApiConfig(e.publicApiKey).Ok? && GrowiSync.BudgetReached(a.maxPages, 0)
    ensures Sync(t, e, a) == SyncRun(Ok(Summary(a, Start, ToIsoString(e.completedAt))), t, [], [])
  {
    ScriptExhausts(e.script);
    SyncFromStep(e, a, ToIsoString(e.completedAt), Fetcher(e.script), |e.script.outcomes|, t, 0, Start);
  }

  // ---- Runs written out ----

  /** One second before the first retry, two before the second, three before the third. */
  const Linear: RetryPolicy := RetryPolicy(3, k => 1000 * k)

  const LastMeta: PublicMeta := PublicMeta(1, None, 0, 1, None)

  /** One empty last page: one request for page 1, no delay, nothing written. */
  lemma {:induction false} OneEmptyPage(t: Tables, e: SyncEnv, a: SyncArgs, iso: string)
    requires !GrowiSync.BudgetReached(a.maxPages, 0)
    ensures var fetch: Fetch := k => if k == 0 then Ok(TopPostsResponse(true, [], LastMeta)) else Err(GrowiApiError(0, "no response"));
            GrowiSync.FailsFrom(fetch, 1) &&
            SyncFrom(e, a, iso, fetch, 1, t, 0, Start) ==
              SyncRun(Ok(SyncSummary(a.startDate, a.endDate, a.limit, a.perPage, a.includeGmv, 1, 0, 0, 1, iso)), t, [1], [])
  {
    var fetch: Fetch := k => if k == 0 then Ok(TopPostsResponse(true, [], LastMeta)) else Err(GrowiApiError(0, "no response"));
    var f := TryWithRetry(fetch, e.policy, 0, 1);
    assert f == GrowiSync.Fetched(Ok(TopPostsResponse(true, [], LastMeta)), 1, []);
    SyncFromStep(e, a, iso, fetch, 1, t, 0, Start);
    PageStepOfPage(e, a, iso, t, 0, Start, f, f.result.value, Pages(1, 1));
    assert PostRows([]) == [];
    assert Pages(1, 1) == [1];
  }

  /** A 503 on the first attempt: the page is asked for twice, with one second between,
      and the run gives up on the 404 that follows. */
  lemma {:induction false} RetryThenNotFound(t: Tables, e: SyncEnv, a: SyncArgs, iso: string)
    requires !GrowiSync.BudgetReached(a.maxPages, 0) && e.policy == Linear
    ensures var fetch: Fetch := k => if k == 0 then Err(GrowiApiError(503, "")) else Err(GrowiApiError(404, "missing"));
            GrowiSync.FailsFrom(fetch, 0) &&
            SyncFrom(e, a, iso, fetch, 0, t, 0, Start) ==
              SyncRun(Err(FetchFailure(GrowiApiError(404, "missing"))), t, [1, 1], [1000])
  {
    var fetch: Fetch := k => if k == 0 then Err(GrowiApiError(503, "")) else Err(GrowiApiError(404, "missing"));
    RetryPolicyCases("");
    RetryPolicyCases("missing");
    assert TryWithRetry(fetch, Linear, 1, 2) == GrowiSync.Fetched(Err(GrowiApiError(404, "missing")), 2, []);
    var f := TryWithRetry(fetch, Linear, 0, 1);
    assert f == GrowiSync.Fetched(Err(GrowiApiError(404, "missing")), 2, [1000]);
    SyncFromStep(e, a, iso, fetch, 0, t, 0, Start);
    assert PageStep(e, a, iso, t, 0, Start, f) == AfterFetch(e, a, iso, t, 0, Start, f);
    assert Pages(1, 2) == [1, 1];
  }

  /** Rate limited on every attempt: four requests for page 1, one, two and three seconds
      apart, and the last 429 is the run's error. */
  lemma {:induction false} RateLimitedThroughout(t: Tables, e: SyncEnv, a: SyncArgs, iso: string)
    requires !GrowiSync.BudgetReached(a.maxPages, 0) && e.policy == Linear
    ensures var fetch: Fetch := k => Err(GrowiApiError(429, "slow down"));
            GrowiSync.FailsFrom(fetch, 0) &&
            SyncFrom(e, a, iso, fetch, 0, t, 0, Start) ==
              SyncRun(Err(FetchFailure(GrowiApiError(429, "slow down"))), t, [1, 1, 1, 1], [1000, 2000, 3000])
  {
    var fetch: Fetch := k => Err(GrowiApiError(429, "slow down"));
    var err := GrowiApiError(429, "slow down");
    RetryPolicyCases("slow down");
    assert TryWithRetry(fetch, Linear, 3, 4) == GrowiSync.Fetched(Err(err), 4, []);
    assert TryWithRetry(fetch, Linear, 2, 3) == GrowiSync.Fetched(Err(err), 4, [3000]);
    assert TryWithRetry(fetch, Linear, 1, 2) == GrowiSync.Fetched(Err(err), 4, [2000, 3000]);
    var f := TryWithRetry(fetch, Linear, 0, 1);
    assert f == GrowiSync.Fetched(Err(err), 4, [1000, 2000, 3000]);
    SyncFromStep(e, a, iso, fetch, 0, t, 0, Start);
    assert PageStep(e, a, iso, t, 0, Start, f) == AfterFetch(e, a, iso, t, 0, Start, f);
    assert Pages(1, 4) == [1, 1, 1, 1];
  }

  /** A fetch that fails with the same retryable error on every call: with the linear
      policy page 1 is asked for `times + 1` = four times, one, two and three seconds
      apart, and the error ends the run. */
  lemma {:induction false} RetriedThroughout(t: Tables, e: SyncEnv, a: SyncArgs, iso: string, fetch: Fetch, err: GrowiApiError)
    requires forall k: nat :: fetch(k) == Err(err)
    requires ShouldRetryGrowiError(err) && !GrowiSync.BudgetReached(a.maxPages, 0) && e.policy == Linear
    ensures GrowiSync.FailsFrom(fetch, 0)
    ensures SyncFrom(e, a, iso, fetch, 0, t, 0, Start) ==
              SyncRun(Err(FetchFailure(err)), t, Pages(1, Linear.times + 1), [1000, 2000, 3000])
  {
    assert TryWithRetry(fetch, Linear, 3, 4) == GrowiSync.Fetched(Err(err), 4, []);
    assert TryWithRetry(fetch, Linear, 2, 3) == GrowiSync.Fetched(Err(err), 4, [3000]);
    assert TryWithRetry(fetch, Linear, 1, 2) == GrowiSync.Fetched(Err(err), 4, [2000, 3000]);
    var f := TryWithRetry(fetch, Linear, 0, 1);
    assert f == GrowiSync.Fetched(Err(err), 4, [1000, 2000, 3000]);
    SyncFromStep(e, a, iso, fetch, 0, t, 0, Start);
    assert PageStep(e, a, iso, t, 0, Start, f) == AfterFetch(e, a, iso, t, 0, Start, f);
  }

  /** A 2xx JSON body of the wrong shape, or one reporting `success: false`, becomes a
      502, which the retry predicate retries like a server error, so the run asks for the
      page four times. */
  lemma {:induction false} ShapeErrorRetried(t: Tables, e: SyncEnv, a: SyncArgs, iso: string, o: HttpOutcome)
    requires o.Response? && IsOk(o.status) && o.json.Ok?
    requires ParseTopPostsResponse(o.json.value).Err? || !ParseTopPostsResponse(o.json.value).value.success
    requires !GrowiSync.BudgetReached(a.maxPages, 0) && e.policy == Linear
    ensures var fetch: Fetch := k => ClassifyTopPosts(o);
            && ClassifyTopPosts(o).Err? && ClassifyTopPosts(o).error.status == 502
            && GrowiSync.FailsFrom(fetch, 0)
            && SyncFrom(e, a, iso, fetch, 0, t, 0, Start) ==
                 SyncRun(Err(FetchFailure(ClassifyTopPosts(o).error)), t, Pages(1, Linear.times + 1), [1000, 2000, 3000])
  {
    var err := ClassifyTopPosts(o).error;
    var fetch: Fetch := k => ClassifyTopPosts(o);
    assert err.status == 502;
    RetriedThroughout(t, e, a, iso, fetch, err);
  }
}
