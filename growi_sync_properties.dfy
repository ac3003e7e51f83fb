/** What a run of `syncGrowiUserContents` promises, proved about the page loop for any
    fetcher and then for the scripted partner API. */
module GrowiSyncProperties {
  import opened Wrappers
  import opened JsNumber
  import opened JsValue
  import opened JsDate
  import opened JsThrown
  import opened GrowiApi
  import opened GrowiPrivateClient
  import opened GrowiDb
  import opened GrowiRepository
  import opened LegacyErrors
  import opened GrowiSync

  type Fetch = nat -> Result<UserContentsPage, GrowiApiError>

  // ---- The tables stay consistent ----

  lemma {:induction false} PageStepKeepsConsistent(e: SyncEnv, a: SyncArgs, iso: string, t: Tables, pos: nat, p: Progress,
                                                   f: Fetched<UserContentsPage>)
    requires pos < f.next && Consistent(t)
    ensures Consistent(PageStep(e, a, iso, t, pos, p, f).tables)
  {
    if !BudgetReached(a.maxPages, p.pagesFetched) && f.result.Ok? {
      UpsertKeepsConsistent(t, f.result.value.data, e.clock(p.pagesFetched), e.host);
    }
  }

  lemma {:induction false} SyncFromKeepsConsistent(e: SyncEnv, a: SyncArgs, iso: string, fetch: Fetch, bound: nat,
                                                   t: Tables, pos: nat, p: Progress)
    requires FailsFrom(fetch, bound) && pos <= bound && Consistent(t)
    ensures Consistent(SyncFrom(e, a, iso, fetch, bound, t, pos, p).tables)
    decreases bound - pos
  {
    SyncFromStep(e, a, iso, fetch, bound, t, pos, p);
    var s := PageStep(e, a, iso, t, pos, p, RetryFrom(fetch, pos, 1));
    PageStepKeepsConsistent(e, a, iso, t, pos, p, RetryFrom(fetch, pos, 1));
    if s.Continue? {
      SyncFromKeepsConsistent(e, a, iso, fetch, bound, s.tables, s.next, s.progress);
    }
  }

  /** A run, whether it succeeds or fails part-way, leaves every post with at most one
      metrics row and every key and share URL unique: each page is one transaction. */
  lemma {:induction false} SyncKeepsConsistent(t: Tables, e: SyncEnv, a: SyncArgs)
    requires Consistent(t)
    ensures Consistent(Sync(t, e, a).tables)
  {
    if e.bearerToken.Str? {
      ScriptExhausts(e.script);
      SyncFromKeepsConsistent(e, a, ToIsoString(e.completedAt), Fetcher(e.script), |e.script.outcomes|, t, 0, Start);
    }
  }

  // ---- The delays slept ----

  /** The pause between pages, or the back-off after the first, second or third failed
      attempt at a page. */
  predicate Pause(d: nat) {
    d == PageDelayMs || d == 1000 || d == 2000 || d == 3000
  }

  predicate AllPauses(ds: seq<nat>) {
    forall i :: 0 <= i < |ds| ==> Pause(ds[i])
  }

  lemma {:induction false} AllPausesAppend(xs: seq<nat>, ys: seq<nat>)
    requires AllPauses(xs) && AllPauses(ys)
    ensures AllPauses(xs + ys)
  {
    forall i | 0 <= i < |xs + ys| ensures Pause((xs + ys)[i]) {
      if i >= |xs| {
        assert (xs + ys)[i] == ys[i - |xs|];
      }
    }
  }

  lemma {:induction false} RetrySleepsArePauses(fetch: Fetch, pos: nat)
    ensures AllPauses(RetryFrom(fetch, pos, 1).sleeps)
  {
    RetryFromSleeps(fetch, pos, 1);
  }

  lemma {:induction false} PageStepSleepsArePauses(e: SyncEnv, a: SyncArgs, iso: string, t: Tables, pos: nat, p: Progress, fetch: Fetch)
    ensures AllPauses(PageStep(e, a, iso, t, pos, p, RetryFrom(fetch, pos, 1)).sleeps)
  {
    var f := RetryFrom(fetch, pos, 1);
    RetrySleepsArePauses(fetch, pos);
    if !BudgetReached(a.maxPages, p.pagesFetched) && f.result.Ok? {
      AllPausesAppend(f.sleeps, [PageDelayMs]);
    }
  }

  lemma {:induction false} SyncFromSleepsArePauses(e: SyncEnv, a: SyncArgs, iso: string, fetch: Fetch, bound: nat,
                                                   t: Tables, pos: nat, p: Progress)
    requires FailsFrom(fetch, bound) && pos <= bound
    ensures AllPauses(SyncFrom(e, a, iso, fetch, bound, t, pos, p).sleeps)
    decreases bound - pos
  {
    SyncFromStep(e, a, iso, fetch, bound, t, pos, p);
    var s := PageStep(e, a, iso, t, pos, p, RetryFrom(fetch, pos, 1));
    PageStepSleepsArePauses(e, a, iso, t, pos, p, fetch);
    if s.Continue? {
      SyncFromSleepsArePauses(e, a, iso, fetch, bound, s.tables, s.next, s.progress);
      AllPausesAppend(s.sleeps, SyncFrom(e, a, iso, fetch, bound, s.tables, s.next, s.progress).sleeps);
    }
  }

  /** Every delay of a run is the 300 ms pause between pages or a back-off of one, two
      or three seconds. */
  lemma {:induction false} SyncSleepsArePauses(t: Tables, e: SyncEnv, a: SyncArgs)
    ensures AllPauses(Sync(t, e, a).sleeps)
  {
    if e.bearerToken.Str? {
      ScriptExhausts(e.script);
      SyncFromSleepsArePauses(e, a, ToIsoString(e.completedAt), Fetcher(e.script), |e.script.outcomes|, t, 0, Start);
    }
  }

  // ---- Errors, summaries and request counts ----

  /** Every failure of a run is a `DbQueryError`: the sync's own, wrapping the fetch error
      or the configuration error, or the upsert's, passed through as it is. */
  predicate SyncError(err: AppError) {
    err.DbQueryError? && (err.operation == SyncOperation || err.operation == UpsertOperation)
  }

  /** What a run that succeeds reports about run `p0` onwards: the arguments, the end
      time, and between one and `MaxAttempts` requests for every page it fetched. */
  predicate OkReport(a: SyncArgs, iso: string, p0: Progress, summary: SyncSummary, requested: nat) {
    && summary.startDate == a.startDate && summary.endDate == a.endDate && summary.perPage == a.perPage
    && summary.completedAt == iso
    && p0.pagesFetched <= summary.pagesFetched
    && summary.pagesFetched - p0.pagesFetched <= requested <= MaxAttempts * (summary.pagesFetched - p0.pagesFetched)
  }

  /** Under a finite positive `maxPages`, the pages fetched from `p` on stay below one more
      than the budget. */
  predicate WithinBudget(a: SyncArgs, pagesFetched: nat) {
    a.maxPages.Some? && a.maxPages.value.Finite? && a.maxPages.value.value > 0.0 ==>
      (pagesFetched as real) < a.maxPages.value.value + 1.0
  }

  /** What one turn gives: its error, the report of a turn that stops with a summary,
      and the counters of a turn that goes on. */
  ghost predicate StepFacts(a: SyncArgs, iso: string, p: Progress, s: Step) {
    && (s.Stop? && s.result.Err? ==> SyncError(s.result.error))
    && (s.Stop? && s.result.Ok? ==> OkReport(a, iso, p, s.result.value, |s.requested|) && WithinBudget(a, s.result.value.pagesFetched))
    && (s.Continue? ==> s.progress.pagesFetched == p.pagesFetched + 1 && 1 <= |s.requested| <= MaxAttempts
                        && WithinBudget(a, s.progress.pagesFetched))
  }

  lemma {:induction false} AfterUpsertFacts(e: SyncEnv, a: SyncArgs, iso: string, t: Tables, p: Progress, page: UserContentsPage,
                                            q: Progress, u: UpsertOutcome, requested: seq<real>, sleeps: seq<nat>, next: nat)
    requires u.result.Err? ==> SyncError(u.result.error)
    requires q.pagesFetched == p.pagesFetched + 1 && 1 <= |requested| <= MaxAttempts && WithinBudget(a, q.pagesFetched)
    ensures StepFacts(a, iso, p, AfterUpsert(e, a, iso, t, page, q, u, requested, sleeps, next))
  {
  }

  lemma {:induction false} PageStepFacts(e: SyncEnv, a: SyncArgs, iso: string, t: Tables, pos: nat, p: Progress, fetch: Fetch)
    requires WithinBudget(a, p.pagesFetched)
    ensures StepFacts(a, iso, p, PageStep(e, a, iso, t, pos, p, RetryFrom(fetch, pos, 1)))
  {
    var f := RetryFrom(fetch, pos, 1);
    RetryFromSleeps(fetch, pos, 1);
    if !BudgetReached(a.maxPages, p.pagesFetched) && f.result.Ok? {
      var page := f.result.value;
      var q := Progress(p.page, p.pagesFetched + 1, p.rowsFetched + |page.data|, page.meta.rowCount, page.meta.pageCount);
      var now := e.clock(p.pagesFetched);
      PageStepOfPage(e, a, iso, t, pos, p, f, page, q, Repeat(p.page, f.next - pos), now);
      if a.maxPages.Some? && a.maxPages.value.Finite? && a.maxPages.value.value > 0.0 {
        assert Truthy(Num(a.maxPages.value));
      }
      AfterUpsertFacts(e, a, iso, t, p, page, q, Upsert(t, page.data, now, e.host), Repeat(p.page, f.next - pos), f.sleeps, f.next);
    }
  }

  /** Everything a run from `p` reports: a failure is a `DbQueryError`, and a success
      reports the arguments, the end time, the request counts and the budget. */
  ghost predicate RunFacts(a: SyncArgs, iso: string, p: Progress, run: SyncRun) {
    && (run.result.Err? ==> SyncError(run.result.error))
    && (run.result.Ok? ==> OkReport(a, iso, p, run.result.value, |run.requested|) && WithinBudget(a, run.result.value.pagesFetched))
  }

  lemma {:induction false} RunFactsPrepend(a: SyncArgs, iso: string, p: Progress, q: Progress, requested: seq<real>, sleeps: seq<nat>, run: SyncRun)
    requires q.pagesFetched == p.pagesFetched + 1 && 1 <= |requested| <= MaxAttempts
    requires RunFacts(a, iso, q, run)
    ensures RunFacts(a, iso, p, Prepend(requested, sleeps, run))
  {
    if run.result.Ok? {
      var n := run.result.value.pagesFetched - q.pagesFetched;
      assert |run.requested| <= MaxAttempts * n;
      assert n + 1 == run.result.value.pagesFetched - p.pagesFetched;
      assert MaxAttempts * (n + 1) == MaxAttempts * n + MaxAttempts;
    }
  }

  lemma {:induction false} SyncFromFacts(e: SyncEnv, a: SyncArgs, iso: string, fetch: Fetch, bound: nat,
                                         t: Tables, pos: nat, p: Progress)
    requires FailsFrom(fetch, bound) && pos <= bound && WithinBudget(a, p.pagesFetched)
    ensures RunFacts(a, iso, p, SyncFrom(e, a, iso, fetch, bound, t, pos, p))
    decreases bound - pos
  {
    SyncFromStep(e, a, iso, fetch, bound, t, pos, p);
    var s := PageStep(e, a, iso, t, pos, p, RetryFrom(fetch, pos, 1));
    PageStepFacts(e, a, iso, t, pos, p, fetch);
    assert StepFacts(a, iso, p, s);
    if s.Continue? {
      SyncFromFacts(e, a, iso, fetch, bound, s.tables, s.next, s.progress);
      RunFactsPrepend(a, iso, p, s.progress, s.requested, s.sleeps, SyncFrom(e, a, iso, fetch, bound, s.tables, s.next, s.progress));
    }
  }

  // ---- What a run fetched and stored ----

  /** The rows of `pages`, counted. */
  function RowsIn(pages: seq<UserContentsPage>): nat {
    if pages == [] then 0 else |pages[0].data| + RowsIn(pages[1..])
  }

  /** Every row of every page in `pages` is keyed in both tables. */
  predicate PagesStored(t: Tables, pages: seq<UserContentsPage>) {
    forall i :: 0 <= i < |pages| ==> RowsStored(t, pages[i].data)
  }

  /** The `rowCount` and `pageCount` of summary `s`: the last page's meta, or the counters
      `p` the run started from when it fetched no page. */
  predicate MetaOfLast(p: Progress, pages: seq<UserContentsPage>, s: SyncSummary) {
    if pages == [] then s.rowCount == p.rowCount && s.pageCount == p.pageCount
    else s.rowCount == pages[|pages| - 1].meta.rowCount && s.pageCount == pages[|pages| - 1].meta.pageCount
  }

  /** What a run from call number `pos`, counters `p` and tables `t` fetched and stored:
      the tables lose no key, and a run that succeeds counts exactly the pages its calls
      returned and their rows, reports the last page's `rowCount` and `pageCount`, and
      leaves every row of those pages in both tables. */
  ghost predicate Totals(fetch: Fetch, pos: nat, p: Progress, t: Tables, run: SyncRun) {
    var pages := PagesIn(fetch, pos, pos + |run.requested|);
    && KeysKept(t, run.tables)
    && (run.result.Ok? ==>
          && run.result.value.pagesFetched == p.pagesFetched + |pages|
          && run.result.value.rowsFetched == p.rowsFetched + RowsIn(pages)
          && MetaOfLast(p, pages, run.result.value)
          && PagesStored(run.tables, pages))
  }

  /** The totals of one turn: a turn that goes on fetched one page, counted it, took its
      meta and stored its rows. */
  ghost predicate StepTotals(fetch: Fetch, pos: nat, p: Progress, t: Tables, s: Step) {
    && (s.Stop? ==> Totals(fetch, pos, p, t, SyncRun(s.result, s.tables, s.requested, s.sleeps)))
    && (s.Continue? ==>
          var pages := PagesIn(fetch, pos, s.next);
          && s.next == pos + |s.requested| && |pages| == 1
          && s.progress.pagesFetched == p.pagesFetched + 1
          && s.progress.rowsFetched == p.rowsFetched + |pages[0].data|
          && s.progress.rowCount == pages[0].meta.rowCount && s.progress.pageCount == pages[0].meta.pageCount
          && KeysKept(t, s.tables) && RowsStored(s.tables, pages[0].data))
  }

  lemma {:induction false} PageStepTotals(e: SyncEnv, a: SyncArgs, iso: string, t: Tables, pos: nat, p: Progress, fetch: Fetch)
    ensures StepTotals(fetch, pos, p, t, PageStep(e, a, iso, t, pos, p, RetryFrom(fetch, pos, 1)))
  {
    var f := RetryFrom(fetch, pos, 1);
    if BudgetReached(a.maxPages, p.pagesFetched) {
      assert PagesIn(fetch, pos, pos) == [];
    } else {
      RetryFromPages(fetch, pos);
      assert PageStep(e, a, iso, t, pos, p, f) == AfterFetch(e, a, iso, t, pos, p, f);
      if f.result.Ok? {
        var page := f.result.value;
        var q := Progress(p.page, p.pagesFetched + 1, p.rowsFetched + |page.data|, page.meta.rowCount, page.meta.pageCount);
        var now := e.clock(p.pagesFetched);
        PageStepOfPage(e, a, iso, t, pos, p, f, page, q, Repeat(p.page, f.next - pos), now);
        UpsertKeepsKeys(t, page.data, now, e.host);
        AfterUpsertTotals(e, a, iso, t, p, page, q, Upsert(t, page.data, now, e.host), Repeat(p.page, f.next - pos), f.sleeps, f.next,
                          fetch, pos);
      }
    }
  }

  lemma {:induction false} AfterUpsertTotals(e: SyncEnv, a: SyncArgs, iso: string, t: Tables, p: Progress, page: UserContentsPage,
                                             q: Progress, u: UpsertOutcome, requested: seq<real>, sleeps: seq<nat>, next: nat,
                                             fetch: Fetch, pos: nat)
    requires next == pos + |requested| && PagesIn(fetch, pos, next) == [page]
    requires q == Progress(p.page, p.pagesFetched + 1, p.rowsFetched + |page.data|, page.meta.rowCount, page.meta.pageCount)
    requires KeysKept(t, u.tables) && (u.result.Ok? ==> RowsStored(u.tables, page.data))
    ensures StepTotals(fetch, pos, p, t, AfterUpsert(e, a, iso, t, page, q, u, requested, sleeps, next))
  {
    assert [page][1..] == [];
    assert RowsIn([page]) == |page.data|;
  }

  /** The pages of a turn followed by the pages of the rest of the run. */
  lemma {:induction false} PagesCons(p: Progress, q: Progress, u: Tables, head: seq<UserContentsPage>, rest: seq<UserContentsPage>, s: SyncSummary)
    requires |head| == 1
    ensures RowsIn(head + rest) == |head[0].data| + RowsIn(rest)
    ensures RowsStored(u, head[0].data) && PagesStored(u, rest) ==> PagesStored(u, head + rest)
    ensures q.rowCount == head[0].meta.rowCount && q.pageCount == head[0].meta.pageCount && MetaOfLast(q, rest, s)
            ==> MetaOfLast(p, head + rest, s)
  {
    var pages := head + rest;
    assert pages[1..] == rest;
    if rest != [] {
      assert pages[|pages| - 1] == rest[|rest| - 1];
    }
    if RowsStored(u, head[0].data) && PagesStored(u, rest) {
      forall i | 0 <= i < |pages| ensures RowsStored(u, pages[i].data) {
        if i > 0 {
          assert pages[i] == rest[i - 1];
        }
      }
    }
  }

  lemma {:induction false} TotalsPrepend(fetch: Fetch, pos: nat, p: Progress, t: Tables, s: Step, run: SyncRun)
    requires s.Continue? && StepTotals(fetch, pos, p, t, s)
    requires Totals(fetch, s.next, s.progress, s.tables, run)
    ensures Totals(fetch, pos, p, t, Prepend(s.requested, s.sleeps, run))
  {
    var whole := Prepend(s.requested, s.sleeps, run);
    var head := PagesIn(fetch, pos, s.next);
    var rest := PagesIn(fetch, s.next, s.next + |run.requested|);
    PagesInSplit(fetch, pos, s.next, s.next + |run.requested|);
    assert pos + |whole.requested| == s.next + |run.requested|;
    if run.result.Ok? {
      PagesCons(p, s.progress, run.tables, head, rest, run.result.value);
    }
  }

  lemma {:induction false} SyncFromTotals(e: SyncEnv, a: SyncArgs, iso: string, fetch: Fetch, bound: nat,
                                          t: Tables, pos: nat, p: Progress)
    requires FailsFrom(fetch, bound) && pos <= bound
    ensures Totals(fetch, pos, p, t, SyncFrom(e, a, iso, fetch, bound, t, pos, p))
    decreases bound - pos
  {
    SyncFromStep(e, a, iso, fetch, bound, t, pos, p);
    var s := PageStep(e, a, iso, t, pos, p, RetryFrom(fetch, pos, 1));
    PageStepTotals(e, a, iso, t, pos, p, fetch);
    if s.Continue? {
      SyncFromTotals(e, a, iso, fetch, bound, s.tables, s.next, s.progress);
      TotalsPrepend(fetch, pos, p, t, s, SyncFrom(e, a, iso, fetch, bound, s.tables, s.next, s.progress));
    }
  }

  /** A run fails only with a `DbQueryError` of the sync or of the upsert. A run that
      succeeds echoes the date range and page size, reports the ISO text of its end,
      made between one and four requests for each page it fetched, and fetched fewer
      than `maxPages + 1` pages when `maxPages` is a positive number. Whatever the
      outcome the tables lose no key; on success `pagesFetched` and `rowsFetched` count
      the pages the partner API returned to the run's requests and their rows,
      `rowCount` and `pageCount` are the last page's, and every row fetched is keyed in
      both tables. */
  lemma {:induction false} SyncReport(t: Tables, e: SyncEnv, a: SyncArgs)
    ensures var run := Sync(t, e, a);
            && (run.result.Err? ==> SyncError(run.result.error))
            && (run.result.Ok? ==> OkReport(a, ToIsoString(e.completedAt), Start, run.result.value, |run.requested|))
            && (run.result.Ok? ==> WithinBudget(a, run.result.value.pagesFetched))
    ensures Totals(Fetcher(e.script), 0, Start, t, Sync(t, e, a))
  {
    if e.bearerToken.Str? {
      ScriptExhausts(e.script);
      SyncFromFacts(e, a, ToIsoString(e.completedAt), Fetcher(e.script), |e.script.outcomes|, t, 0, Start);
      SyncFromTotals(e, a, ToIsoString(e.completedAt), Fetcher(e.script), |e.script.outcomes|, t, 0, Start);
    } else {
      assert PagesIn(Fetcher(e.script), 0, 0) == [];
    }
  }

  // ---- The budget ----

  /** `args.maxPages && pagesFetched >= args.maxPages`: a budget of zero, `NaN` or none
      is no budget at all, and a negative one stops before the first page. */
  lemma {:induction false} BudgetEdges(n: nat)
    ensures !BudgetReached(None, n)
    ensures !BudgetReached(Some(Finite(0.0)), n)
    ensures !BudgetReached(Some(NaN), n)
    ensures BudgetReached(Some(Finite(-1.0)), 0)
    ensures BudgetReached(Some(Finite((n + 1) as real)), n + 1) && !BudgetReached(Some(Finite((n + 1) as real)), n)
  {
  }

  /** With the budget spent from the start, the run succeeds without a request. */
  lemma {:induction false} SpentBudgetSendsNothing(t: Tables, e: SyncEnv, a: SyncArgs)
    requires e.bearerToken.Str? && BudgetReached(a.maxPages, 0)
    ensures Sync(t, e, a) == SyncRun(Ok(Summary(a, Start, ToIsoString(e.completedAt))), t, [], [])
  {
    ScriptExhausts(e.script);
    SyncFromStep(e, a, ToIsoString(e.completedAt), Fetcher(e.script), |e.script.outcomes|, t, 0, Start);
  }

  // ---- The source as written ----

  lemma {:induction false} FirstTurnRequests(e: SyncEnv, a: SyncArgs, iso: string, fetch: Fetch, bound: nat, t: Tables)
    requires FailsFrom(fetch, bound) && !BudgetReached(a.maxPages, 0)
    ensures |SyncFrom(e, a, iso, fetch, bound, t, 0, Start).requested| >= 1
  {
    var f := RetryFrom(fetch, 0, 1);
    SyncFromStep(e, a, iso, fetch, bound, t, 0, Start);
    assert PageStep(e, a, iso, t, 0, Start, f) == AfterFetch(e, a, iso, t, 0, Start, f);
  }

  /** With a valid token and no budget spent, the intended run asks the partner API for
      page 1 at least once, while the source as written sends nothing and fails with a
      `TypeError`, whatever the partner API would have answered. */
  lemma {:induction false} AsWrittenNeverFetches(t: Tables, e: SyncEnv, a: SyncArgs)
    requires e.bearerToken.Str? && !BudgetReached(a.maxPages, 0)
    ensures |Sync(t, e, a).requested| >= 1
    ensures SyncAsWritten(t, e, a).requested == []
    ensures SyncAsWritten(t, e, a).result == Err(NewDbQueryError(SyncOperation, ErrorInstance("TypeError", ReadLengthOfUndefined)))
  {
    ScriptExhausts(e.script);
    FirstTurnRequests(e, a, ToIsoString(e.completedAt), Fetcher(e.script), |e.script.outcomes|, t);
  }

  // ---- Two runs written out ----

  const LastPageMeta: PrivateMeta := PrivateMeta(0.0, 1.0, 1.0, None, None, None, None)

  /** One empty last page: one request for page 1, no delay, nothing written. */
  lemma {:induction false} OneEmptyPage(t: Tables, e: SyncEnv, a: SyncArgs, iso: string)
    requires !BudgetReached(a.maxPages, 0)
    ensures var fetch: Fetch := k => if k == 0 then Ok(UserContentsPage([], LastPageMeta)) else Err(GrowiApiError(0, "no response"));
            FailsFrom(fetch, 1) &&
            SyncFrom(e, a, iso, fetch, 1, t, 0, Start) ==
              SyncRun(Ok(SyncSummary(a.startDate, a.endDate, a.perPage, 1, 0, 0.0, 1.0, iso)), t, [1.0], [])
  {
    var fetch: Fetch := k => if k == 0 then Ok(UserContentsPage([], LastPageMeta)) else Err(GrowiApiError(0, "no response"));
    var f := RetryFrom(fetch, 0, 1);
    assert f == Fetched(Ok(UserContentsPage([], LastPageMeta)), 1, []);
    SyncFromStep(e, a, iso, fetch, 1, t, 0, Start);
    assert PageStep(e, a, iso, t, 0, Start, f) == AfterFetch(e, a, iso, t, 0, Start, f);
    assert Repeat(1.0, 1) == [1.0];
  }

  /** A 503 on the first attempt: the page is asked for twice, with one second between,
      and the run gives up on the 404 that follows. */
  lemma {:induction false} RetryThenNotFound(t: Tables, e: SyncEnv, a: SyncArgs, iso: string)
    requires !BudgetReached(a.maxPages, 0)
    ensures var fetch: Fetch := k => if k == 0 then Err(GrowiApiError(503, "")) else Err(GrowiApiError(404, "missing"));
            FailsFrom(fetch, 0) &&
            SyncFrom(e, a, iso, fetch, 0, t, 0, Start) ==
              SyncRun(Err(SyncFailure(GrowiApiError(404, "missing"))), t, [1.0, 1.0], [1000])
  {
    var fetch: Fetch := k => if k == 0 then Err(GrowiApiError(503, "")) else Err(GrowiApiError(404, "missing"));
    assert RetryFrom(fetch, 1, 2) == Fetched(Err(GrowiApiError(404, "missing")), 2, []);
    var f := RetryFrom(fetch, 0, 1);
    assert f == Fetched(Err(GrowiApiError(404, "missing")), 2, [1000]);
    SyncFromStep(e, a, iso, fetch, 0, t, 0, Start);
    assert PageStep(e, a, iso, t, 0, Start, f) == AfterFetch(e, a, iso, t, 0, Start, f);
    assert Repeat(1.0, 2) == [1.0, 1.0];
  }

  /** A fetch that fails with the same retryable error on every call: page 1 is asked
      for four times, one, two and three seconds apart, and the error ends the run. */
  lemma {:induction false} RetriedThroughout(t: Tables, e: SyncEnv, a: SyncArgs, iso: string, fetch: Fetch, err: GrowiApiError)
    requires forall k: nat :: fetch(k) == Err(err)
    requires ShouldRetryGrowiError(ApiError(err)) && !BudgetReached(a.maxPages, 0)
    ensures FailsFrom(fetch, 0)
    ensures SyncFrom(e, a, iso, fetch, 0, t, 0, Start) ==
              SyncRun(Err(SyncFailure(err)), t, [1.0, 1.0, 1.0, 1.0], [1000, 2000, 3000])
  {
    assert RetryFrom(fetch, 3, 4) == Fetched(Err(err), 4, []);
    assert RetryFrom(fetch, 2, 3) == Fetched(Err(err), 4, [3000]);
    assert RetryFrom(fetch, 1, 2) == Fetched(Err(err), 4, [2000, 3000]);
    var f := RetryFrom(fetch, 0, 1);
    assert f == Fetched(Err(err), 4, [1000, 2000, 3000]);
    SyncFromStep(e, a, iso, fetch, 0, t, 0, Start);
    assert PageStep(e, a, iso, t, 0, Start, f) == AfterFetch(e, a, iso, t, 0, Start, f);
    assert Repeat(1.0, 4) == [1.0, 1.0, 1.0, 1.0];
  }

  /** A 2xx JSON body of the wrong shape becomes a 502, which the retry predicate cannot
      tell from a server error, so the run asks for the page four times. */
  lemma {:induction false} ShapeErrorRetried(t: Tables, e: SyncEnv, a: SyncArgs, iso: string, o: HttpOutcome)
    requires o.Response? && IsOk(o.status) && o.json.Ok? && ParsePage(o.json.value).Err?
    requires !BudgetReached(a.maxPages, 0)
    ensures var err := GrowiApiError(502, "Unexpected Growi response shape" + " (" + ShapeDetail(ParsePage(o.json.value).error) + ")");
            var fetch: Fetch := k => ClassifyUserContents(o);
            && ClassifyUserContents(o) == Err(err)
            && FailsFrom(fetch, 0)
            && SyncFrom(e, a, iso, fetch, 0, t, 0, Start) ==
                 SyncRun(Err(SyncFailure(err)), t, [1.0, 1.0, 1.0, 1.0], [1000, 2000, 3000])
  {
    var err := ClassifyUserContents(o).error;
    var fetch: Fetch := k => ClassifyUserContents(o);
    RetriedThroughout(t, e, a, iso, fetch, err);
  }
}
