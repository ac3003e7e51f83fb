# hono-cf-api core, modelled in Dafny

This project models the deterministic core of the `hono-cf-api` Cloudflare Workers API.

- **The Growi content sync.** Two orchestrators page through a partner API:
  - the private user-contents list (`syncGrowiUserContents`);
  - the public top-posts-by-views list (`syncGrowiTopPostsByViews`).

  Each one retries a failing page under a bounded, linear back-off. It upserts every fetched page into two Postgres tables, posts and their metrics snapshots, keyed by Growi post id, in one transaction per page. It stops on a page budget, an empty page or the pagination metadata.
- **Supporting Growi pieces.** The HTTP-outcome classification of the two Growi clients, their response schemas, the row mapping, the timestamp and engagement-rate parsers of the repository, and the backfill request schema.
- **Payload normalisers:**
  - the TikHub video, legacy video/download and profile extractors;
  - the Workers AI transcription extractor;
  - the shared number and string preprocessors;
  - the Unix-timestamp-to-ISO conversion;
  - the required-binding lookup.
- **Validators and error mapping.** The error constructors and their `toApiError` tables, and the request validators for posts, TikTok links and usernames, and transcription URLs.

How the model is built:

- **JavaScript and zod.** The JavaScript values a handler sees are a `Value` datatype, with `undefined`, the non-finite numbers and objects as maps. The zod schemas are parsers that return the value or the first issue zod reports.
- **The partner API.** It is a script of per-request outcomes, and sleeping is a recorded delay.
- **The two tables.** They live in a class whose transaction method commits a page or leaves both tables as they were.
- **Host facilities.** The clock, the random UUID, URL parsing, `Number#toString` for fractions and Unicode letter classes are parameters.
- **Built-ins implemented exactly.** `String#trim`, `Number(string)`, `parseFloat` and `Date#toISOString` are written out, so that examples such as `1758110287` → `2025-09-17T11:58:07.000Z` are lemmas.

## Model

| member | source | states |
|---|---|---|
| GrowiSync.RetryPolicy | src/growi/sync.ts:14-28 | status 0, 429 and 404 are final; 5xx and a 422 whose message contains the case-sensitive "Request timeout" are retried |
| GrowiSync.FetchPageWithRetry | src/growi/sync.ts:30-48 | the retry loop's result, calls and sleeps are exactly those of the recursive reading `RetryFrom` from attempt 1 |
| GrowiSync.RetryFromSleeps | src/growi/sync.ts:33-46 | between one and four calls are made, and the delay after the k-th failed attempt is 1000·k ms |
| GrowiSync.RetryFromResult | src/growi/sync.ts:36-42 | the result is the last call's; an error is returned only when it is not retryable or the fourth attempt failed |
| GrowiSync.RetryFromRetriedOnlyRetryable | src/growi/sync.ts:39-45 | every call before the last failed with a retryable error, so a non-retryable error ends the loop after its own call |
| GrowiSync.RetryOkBefore | src/growi/sync.ts:36-38 | a successful fetch uses only outcomes before the point where the partner API stops answering |
| GrowiSync.ScriptExhausts | src/growi/sync.ts:86-93 | past its scripted outcomes the partner API gives a transport failure on every request |
| GrowiSync.PagesInSplit | src/growi/sync.ts:81-111 | the pages a range of calls returned are those of its first part followed by those of the rest |
| GrowiSync.PagesInNone | src/growi/sync.ts:36-45 | calls that all fail return no page |
| GrowiSync.RetryFromPages | src/growi/sync.ts:30-48 | the calls of one retried fetch return at most one page, and it is the fetch's result |
| GrowiSync.SyncFromStep | src/growi/sync.ts:81-111 | a run is its first turn, then, when that turn continues, the rest of the run from the page `meta.next_page` names |
| GrowiSync.PrependTwice | src/growi/sync.ts:81-111 | prepending two turns' requests and sleeps is prepending their concatenations |
| GrowiSync.Sync | src/growi/sync.ts:71-131 | a bearer token that is not a string fails with status 0 "Invalid Growi API config" before any request, and leaves the tables unchanged |
| GrowiSync.SyncAsWritten | src/growi/sync.ts:73-96 | as written: no request is sent, the tables are unchanged, and the run fails with the wrapped `TypeError` unless the budget is spent from the start |
| GrowiSync.SyncPage | src/growi/sync.ts:81-111 | one loop turn against the store: its step is the functional `PageStep` and the store afterwards holds that step's tables |
| GrowiSync.FinishPage | src/growi/sync.ts:100-110 | the upsert of a fetched page against the store, then the stop-or-continue decision of `AfterUpsert` |
| GrowiSync.SyncPages | src/growi/sync.ts:75-111 | the page loop's result, requests, sleeps and final tables are those of the recursive run `SyncFrom` from page 1 |
| GrowiSync.SyncGrowiUserContents | src/growi/sync.ts:61-132 | the whole imperative sync equals the functional `Sync` of the tables before it |
| GrowiSyncProperties.PageStepKeepsConsistent | src/growi/sync.ts:100-103 | one turn keeps the table constraints (unique keys and share URLs, at most one metrics row per post) |
| GrowiSyncProperties.SyncFromKeepsConsistent | src/growi/sync.ts:81-111 | the page loop keeps the table constraints, whatever the partner API answers |
| GrowiSyncProperties.SyncKeepsConsistent | src/growi/sync.ts:100-103 | a run keeps the table constraints whether it succeeds or fails part-way, since each page is one transaction |
| GrowiSyncProperties.AllPausesAppend | src/growi/sync.ts:44 | concatenations of allowed delays are allowed delays |
| GrowiSyncProperties.RetrySleepsArePauses | src/growi/sync.ts:44 | every retry delay is 1000, 2000 or 3000 ms |
| GrowiSyncProperties.PageStepSleepsArePauses | src/growi/sync.ts:44-110 | a turn sleeps only retry delays and the 300 ms page pause |
| GrowiSyncProperties.SyncFromSleepsArePauses | src/growi/sync.ts:81-111 | the page loop sleeps only retry delays and the 300 ms page pause |
| GrowiSyncProperties.SyncSleepsArePauses | src/growi/sync.ts:44-110 | every delay of a run is the 300 ms pause between pages or a back-off of one, two or three seconds |
| GrowiSyncProperties.AfterUpsertFacts | src/growi/sync.ts:100-110 | after an upsert a turn fails only with the upsert's or the sync's `DbQueryError`, and a continuing turn has moved the counters on |
| GrowiSyncProperties.PageStepFacts | src/growi/sync.ts:81-110 | a turn within budget makes between one and four requests for one page and keeps the run's reporting facts |
| GrowiSyncProperties.RunFactsPrepend | src/growi/sync.ts:81-111 | the reporting facts of the rest of a run carry back over a turn that fetched one page |
| GrowiSyncProperties.SyncFromFacts | src/growi/sync.ts:81-122 | the page loop from any state within budget has the reporting facts |
| GrowiSyncProperties.AfterUpsertTotals | src/growi/sync.ts:95-110 | after the upsert of a fetched page a turn that goes on has counted that page and its rows, taken its `row_count`/`page_count`, kept every key and stored the rows; one that stops with a summary reports the same |
| GrowiSyncProperties.PageStepTotals | src/growi/sync.ts:82-110 | one turn: a budget stop fetches no page, a fetch failure or upsert failure keeps the tables, and a turn that goes on fetched exactly one page among its calls and counted and stored it |
| GrowiSyncProperties.PagesCons | src/growi/sync.ts:95-98 | the rows, the last meta and the stored rows of a turn's page followed by the rest of the run's pages |
| GrowiSyncProperties.TotalsPrepend | src/growi/sync.ts:81-111 | the totals of the rest of a run carry back over a turn that fetched one page |
| GrowiSyncProperties.SyncFromTotals | src/growi/sync.ts:75-122 | the page loop from any call and any counters has the totals: tables that lose no key, and on success exactly the pages returned to its calls counted, summed, their last meta reported and their rows stored |
| GrowiSyncProperties.SyncReport | src/growi/sync.ts:75-130 | a run fails only with a `DbQueryError` of the sync or of the upsert; a successful one echoes the date range and page size, reports the ISO text of its end, made one to four requests per page fetched, and stayed within a positive `maxPages`; the tables lose no key, and on success `pagesFetched`/`rowsFetched` are the number of pages the partner API returned to the run's requests and the sum of their row counts, `rowCount`/`pageCount` are the last page's meta (0 without a page), and every fetched row is keyed in both tables |
| GrowiSyncProperties.BudgetEdges | src/growi/sync.ts:82-84 | a `maxPages` of 0, NaN or absent is no budget; a negative one stops before the first page; a budget of n stops after n pages and not before |
| GrowiSyncProperties.SpentBudgetSendsNothing | src/growi/sync.ts:82-84 | with the budget spent from the start the run succeeds with an empty summary and sends nothing |
| GrowiSyncProperties.FirstTurnRequests | src/growi/sync.ts:81-93 | a loop that starts under budget requests at least one page |
| GrowiSyncProperties.AsWrittenNeverFetches | src/growi/sync.ts:73-96 | with a valid token and budget left, the intended run asks for page 1, while the code as written sends nothing and fails with a `TypeError` |
| GrowiSyncProperties.OneEmptyPage | src/growi/sync.ts:105-107 | one empty last page gives one request for page 1, no delay, nothing written, and a summary of one page and zero rows |
| GrowiSyncProperties.RetryThenNotFound | src/growi/sync.ts:40-45 | a 503 followed by a 404 gives two requests for page 1, one second apart, and the run fails with the 404 |
| GrowiSyncProperties.RetriedThroughout | src/growi/sync.ts:30-48 | a fetch failing with one retryable error on every call gives four requests for page 1, one, two and three seconds apart, and that error as the run's |
| GrowiSyncProperties.ShapeErrorRetried | src/growi/private-client.ts:143-154 | a 2xx JSON body of the wrong shape is the 502 "Unexpected Growi response shape (…)" and is asked for four times, the 502 ending the run |
| GrowiRetry.ClassifyFailure | src/growi/private-client.ts:97-172 | the client's classification with its error tagged: a transport failure exactly for a failed `fetch`, a shape failure exactly for a rejected 2xx response, otherwise a status failure |
| GrowiRetry.IntendedPolicy | src/growi/sync.ts:14-28 | under the design's predicate a transport failure, a 429, a 5xx status and a 422 reporting a request timeout are retried; a shape error and a 404 are final |
| GrowiRetry.RetryIntendedRetriedOnlyRetryable | src/growi/sync.ts:30-48 | under the design's predicate every call before the last failed retryably, so never with a shape error |
| GrowiRetry.AgreesWithPrivateRetry | src/growi/sync.ts:30-48 | where the design's predicate and the private sync's agree on every call, the two retry loops give the same calls, sleeps and result |
| GrowiRetry.AgreesWithPublicRetry | src/growi/public-sync.ts:134-141 | where the design's predicate and the public sync's agree on every call, the two retry loops give the same calls, sleeps and result |
| GrowiRetry.FetchersArePlain | src/growi/sync.ts:86-93 | without the tags the tagged fetchers are the syncs' own |
| GrowiRetry.BadPageRequestedOnce | src/growi/private-client.ts:143-154 | under the design's predicate a 2xx JSON body of the wrong shape is asked for once, with no sleep, and its 502 is the result, whatever the partner would answer next |
| GrowiRetry.BadResponseRequestedOnce | src/growi/public-client.ts:133-152 | under the design's predicate a 2xx JSON body of the wrong shape or with `success: false` is asked for once, whatever the retry policy, and its 502 is the result |
| GrowiRetry.PrivateRetryDiffers | src/growi/sync.ts:14-28 | the private code and the design part on exactly these: a transport failure and a 429 are final in the code but retried by the design, a shape 502 the reverse |
| GrowiPublicSync.ToGrowiApiError | src/growi/public-sync.ts:27-38 | a `GrowiApiError` passes unchanged; anything else becomes status 0 with the `Error`'s message or "Growi public request failed: " and the value's text |
| GrowiPublicSync.TryWithRetrySleeps | src/growi/public-sync.ts:134-141 | the retried call makes at most `times + 1` calls and sleeps the policy's delay before each further one |
| GrowiPublicSync.TryWithRetryResult | src/growi/public-sync.ts:134-141 | the result is the last call's; it is an error only when it is not retryable or the attempts are used up |
| GrowiPublicSync.TryWithRetryRetriedOnlyRetryable | src/growi/public-sync.ts:139 | every call before the last failed with an error `shouldRetryGrowiError` accepts |
| GrowiPublicSync.TryWithRetryOkBefore | src/growi/public-sync.ts:113-151 | a successful retried call uses only outcomes before the partner API stops answering |
| GrowiPublicSync.ScriptExhausts | src/growi/public-sync.ts:117-124 | past its scripted outcomes the partner API fails every request |

| GrowiPublicSync.ToInternalPostRow | src/growi/public-sync.ts:40-64 | id, share URL and platform are copied; views, likes, comments and shares become the four counts; absent optional fields are null; the raw source is "public_top_posts_by_views" |
| GrowiPublicSync.SyncFromStep | src/growi/public-sync.ts:108-172 | a run is its first turn, then, when it continues, the rest of the run from the next page |
| GrowiPublicSync.PrependTwice | src/growi/public-sync.ts:108-172 | prepending two turns is prepending their concatenations |
| GrowiPublicSync.Sync | src/growi/public-sync.ts:91-100 | a key that is not a string or is blank fails with the configuration error before any request, tables unchanged |
| GrowiPublicSync.SyncPage | src/growi/public-sync.ts:108-172 | one loop turn against the store is the functional `PageStep`, and the store holds its tables |
| GrowiPublicSync.FinishPage | src/growi/public-sync.ts:160-171 | the upsert of a page's rows against the store, then the stop-or-continue decision |
| GrowiPublicSync.SyncPages | src/growi/public-sync.ts:102-172 | the page loop's result, requests, sleeps and tables are those of the recursive run `SyncFrom` from page 1 |
| GrowiPublicSync.SyncGrowiTopPostsByViews | src/growi/public-sync.ts:79-187 | the whole imperative sync equals the functional `Sync` of the tables before it |
| GrowiPublicSyncProperties.LowerRequestTimeout | src/growi/public-sync.ts:20 | "Request Timeout" lower-cases to "request timeout" |
| GrowiPublicSyncProperties.RetryPolicyCases | src/growi/public-sync.ts:15-25 | status 0, 429 and 5xx are retried, and so is a 422 with "request timeout" in any letter case; 404 and a plain 422 are final |
| GrowiPublicSyncProperties.PublicRowLeavesNulls | src/growi/public-sync.ts:48-60 | a stored public post has null account id, campaign, create time, update time, saves and engagement rate, never 0 or "", and its counts are the public metrics |
| GrowiPublicSyncProperties.PageStepKeepsConsistent | src/growi/public-sync.ts:160 | one turn keeps the table constraints |
| GrowiPublicSyncProperties.SyncFromKeepsConsistent | src/growi/public-sync.ts:108-172 | the page loop keeps the table constraints |
| GrowiPublicSyncProperties.SyncKeepsConsistent | src/growi/public-sync.ts:160 | a run keeps the table constraints whether it succeeds or fails part-way |
| GrowiPublicSyncProperties.StopRule | src/growi/public-sync.ts:155-171 | a turn goes on exactly when the budget allows a fetch, the page arrives, its upsert commits and it is not the last page (rows empty, `page_count` 0, `current_page ≥ page_count`, or `has_more` false); it then asks for page + 1, updates the counters and pauses 2200 ms |
| GrowiPublicSyncProperties.AllPausesAppend | src/growi/public-sync.ts:171 | concatenations of allowed delays are allowed delays |
| GrowiPublicSyncProperties.RetrySleepsArePauses | src/growi/public-sync.ts:134-141 | every retry delay is one of the policy's delays |
| GrowiPublicSyncProperties.PageStepSleepsArePauses | src/growi/public-sync.ts:134-171 | a turn sleeps only retry delays and the 2200 ms pause |
| GrowiPublicSyncProperties.SyncFromSleepsArePauses | src/growi/public-sync.ts:108-172 | the page loop sleeps only retry delays and the 2200 ms pause |
| GrowiPublicSyncProperties.SyncSleepsArePauses | src/growi/public-sync.ts:134-171 | every delay of a run is the 2200 ms pause between pages or a retry delay |
| GrowiPublicSyncProperties.AdvancingPages | src/growi/public-sync.ts:170 | repeated requests for one page followed by requests from it or the next page still go up one page at a time |
| GrowiPublicSyncProperties.MostRequestsIsProduct | src/growi/public-sync.ts:108-151 | the request bound over pages is attempts × pages |
| GrowiPublicSyncProperties.UpsertPageFacts | src/growi/public-sync.ts:155-171 | an upserted page's turn keeps the run's reporting facts |
| GrowiPublicSyncProperties.PageStepFacts | src/growi/public-sync.ts:108-171 | a turn within budget makes between one and `times + 1` requests for the current page and keeps the reporting facts |
| GrowiPublicSyncProperties.RunFactsPrepend | src/growi/public-sync.ts:108-172 | the facts of the rest of a run carry back over a turn that fetched one page |
| GrowiPublicSyncProperties.RunFactsOfTurn | src/growi/public-sync.ts:108-172 | a run's facts follow from its first turn's and the rest's |
| GrowiPublicSyncProperties.Turn | src/growi/public-sync.ts:108-172 | one loop turn: what it gives and how the run continues from it |
| GrowiPublicSyncProperties.SyncFromFacts | src/growi/public-sync.ts:102-185 | the page loop from any state within budget has the reporting facts |
| GrowiPublicSyncProperties.TryWithRetryPages | src/growi/public-sync.ts:113-151 | the calls of one retried fetch return at most one page, and it is the fetch's result |
| GrowiPublicSyncProperties.UpsertPageIs | src/growi/public-sync.ts:153-160 | the upsert of a page's rows counts the page and its rows and takes the page's meta before the upsert |
| GrowiPublicSyncProperties.UpsertPageTotals | src/growi/public-sync.ts:153-171 | an upserted page's turn has that page's totals: one page, its posts counted, its meta taken, its rows stored, no key lost |
| GrowiPublicSyncProperties.AfterUpsertTotals | src/growi/public-sync.ts:155-171 | after the upsert a turn that goes on or stops with a summary has counted the page and its posts, taken its meta and kept every key |
| GrowiPublicSyncProperties.PageStepTotals | src/growi/public-sync.ts:109-171 | one turn: a budget stop fetches no page, a failure keeps the tables, and a turn that goes on fetched exactly one page among its calls and counted and stored it |
| GrowiPublicSyncProperties.PagesCons | src/growi/public-sync.ts:155-158 | the posts, the last meta and the stored rows of a turn's page followed by the rest of the run's pages |
| GrowiPublicSyncProperties.TotalsPrepend | src/growi/public-sync.ts:108-172 | the totals of the rest of a run carry back over a turn that fetched one page |
| GrowiPublicSyncProperties.SyncFromTotals | src/growi/public-sync.ts:102-185 | the page loop from any call and any counters has the totals |
| GrowiPublicSyncProperties.SyncReport | src/growi/public-sync.ts:91-185 | a run fails only with the configuration's or the page loop's `DbQueryError`; a successful one echoes its arguments, reports the ISO text of its end, made one to `times + 1` requests per page and stayed within budget; pages asked for start at 1 and go up by one; the tables lose no key, and on success `pagesFetched`/`rowsFetched` are the number of pages the partner API returned to the run's requests and the sum of their post counts, `rowCount`/`pageCount` are the last page's meta (0 without a page), and every fetched post is keyed in both tables |
| GrowiPublicSyncProperties.SpentBudgetSendsNothing | src/growi/public-sync.ts:109-111 | with the budget spent from the start the run succeeds without a request |
| GrowiPublicSyncProperties.OneEmptyPage | src/growi/public-sync.ts:166-168 | one empty last page gives one request for page 1, no delay, nothing written |
| GrowiPublicSyncProperties.RetryThenNotFound | src/growi/public-sync.ts:134-141 | a 503 then a 404 gives two requests for page 1, one second apart, and the 404 as the run's error |
| GrowiPublicSyncProperties.RateLimitedThroughout | src/growi/public-sync.ts:15-16 | rate limited throughout: four requests for page 1, one, two and three seconds apart, and the last 429 is the run's error |
| GrowiPublicSyncProperties.RetriedThroughout | src/growi/public-sync.ts:134-141 | a fetch failing with one retryable error on every call gives, under the linear policy, `times + 1` = four requests for page 1, one, two and three seconds apart, and that error as the run's |
| GrowiPublicSyncProperties.ShapeErrorRetried | src/growi/public-client.ts:133-152 | a 2xx JSON body of the wrong shape or with `success: false` is a 502 and is asked for four times under the linear policy, the 502 ending the run |
| GrowiRepository.UnixSecondsToDate | src/growi/repository.ts:8-14 | null exactly for a missing or non-positive value; otherwise the instant `value·1000` ms, which is an Invalid Date exactly beyond the range of `Date` |
| GrowiRepository.IsoToDate | src/growi/repository.ts:16-23 | a date exactly for a present, non-empty string that `Date` parses, and then the parsed instant; never an error |
| GrowiRepository.ParseEngagementRate | src/growi/repository.ts:25-38 | null for a missing value; a number is printed as it is; a string is read after its first `%` and its surrounding white space go, and is null exactly when it does not read as a finite number |
| GrowiRepository.FailureCause | src/growi/repository.ts:130 | an Invalid Date among the parameters reaches the `catch` as drizzle's `RangeError` "Invalid time value"; any other failure as the driver's error |
| GrowiRepository.Upsert | src/growi/repository.ts:48-131 | an empty batch returns 0 and writes nothing; success returns the row count; failure is a `DbQueryError` "upsert growi page" and leaves both tables as they were |
| GrowiRepository.UpsertGrowiPage | src/growi/repository.ts:44-132 | the imperative upsert against the store returns, and leaves in the store, what the functional `Upsert` gives |
| GrowiRepository.CommittedParts | src/growi/repository.ts:87-126 | a committed upsert is made of one bound post and one bound metric per row, keyed by the row id |
| GrowiRepository.UpsertStoresRow | src/growi/repository.ts:54-125 | after a committed upsert each row's id is an integer whose post and metrics are present; the post has every listed column overwritten and its `firstSeenAt` kept when it existed; the metrics snapshot is entirely the row's |
| GrowiRepository.BoundPost | src/growi/repository.ts:56-74 | a bound post has the row's columns and both timestamps `now`; merged over an old row it keeps that row's `firstSeenAt` |
| GrowiRepository.BoundMetric | src/growi/repository.ts:76-85 | a bound metric has the row's counts, saves count, engagement rate and `pulledAt = now` |
| GrowiRepository.UpsertStoresRows | src/growi/repository.ts:87-125 | a committed upsert has distinct integer ids, stores every row as above, and leaves posts and metrics of every other id unchanged |
| GrowiRepository.UpsertKeepsKeys | src/growi/repository.ts:87-125 | an upsert never removes a post or a metrics row, and a committed one has every row's id as a key of both tables |
| GrowiRepository.UpsertKeepsConsistent | src/growi/repository.ts:87-126 | an upsert keeps every table constraint |
| GrowiRepository.UpsertRejectsOutOfRangeCreateTime | src/growi/repository.ts:69 | a page with a positive `create_time` beyond the range of `Date` fails as a whole with the `RangeError` and changes nothing |
| GrowiRepository.EngagementRateOfPercent | src/growi/repository.ts:36-37 | a percentage "n%" is stored as "n" |
| GrowiRepository.IntegerRendering | src/growi/repository.ts:29 | an integer below 10^21 prints in plain decimal |
| GrowiRepository.EngagementRateOfParsed | src/growi/repository.ts:36-37 | a string that reads as a finite number is stored as that number printed |
| GrowiRepository.PercentOfDigits | src/growi/repository.ts:36 | removing the `%` of "n%" and trimming gives "n" |
| GrowiRepository.ParseFloatOfDigits | src/growi/repository.ts:36 | `parseFloat` of a decimal integer is that integer |
| GrowiRepository.EngagementRateOfInteger | src/growi/repository.ts:28-30 | an integer-valued number is stored in plain decimal |
| GrowiRepository.EngagementRateValue | src/growi/repository.ts:25-38 | the number behind the rate: present exactly when `parseEngagementRate` gives a text, and that text is the number printed |
| GrowiRepository.OverflowingRateFailsPage | src/growi/repository.ts:76-126 | a page with a row whose rate does not fit `numeric(10,6)` is not committed: the upsert fails and both tables stay as they were |
| GrowiRepository.WidePercentFailsPage | src/growi/repository.ts:83 | a percentage of 10000 or more, such as "12345%", fails the page holding it |
| GrowiDb.Bigint | src/db/schema.ts:26 | a `bigint` parameter accepts exactly the integers of the 64-bit range |
| GrowiDb.OptionalBigint | src/db/schema.ts:35 | a nullable `bigint` accepts null and exactly the 64-bit integers |
| GrowiDb.BindPost | src/db/schema.ts:23-42 | a bound post row is keyed by its `growi_post_id`, a 64-bit integer |
| GrowiDb.BindPosts | src/db/schema.ts:23-42 | a batch binds row by row, in order |
| GrowiDb.ConvertPosts | src/db/schema.ts:37-41 | an Invalid Date among the timestamps fails the batch before any row is written |
| GrowiDb.BindMetric | src/db/schema.ts:51-65 | a bound metrics row is keyed by its `growi_post_id`, a 64-bit integer, and keeps the engagement-rate text; a rate too wide for `numeric(10,6)` fails the statement |
| GrowiDb.RateFitsExactly | src/db/schema.ts:63 | `numeric(10,6)` takes exactly the values strictly between -9999.9999995 and 9999.9999995, which round to fewer than five integer digits |
| GrowiDb.BindMetrics | src/db/schema.ts:51-65 | a metrics batch binds row by row, in order |
| GrowiDb.Merged | src/growi/repository.ts:91-108 | on a conflict every column but `first_seen_at` is overwritten; a new key is inserted as given |
| GrowiDb.PostStep | src/db/schema.ts:26-48 | one posts row succeeds exactly when its key was not already affected by the statement and it collides with no other row's share URL or (platform, external id); the row is then inserted or merged |
| GrowiDb.MetricStep | src/db/schema.ts:55-68 | one metrics row succeeds exactly when its post exists and its key was not already affected; the snapshot is then replaced entirely |
| GrowiDb.ExecutePostsMerges | src/growi/repository.ts:88-109 | a committed posts statement had distinct keys, merged each against the table as it was before, and left every other row untouched |
| GrowiDb.ExecuteMetricsReplaces | src/growi/repository.ts:111-125 | a committed metrics statement had distinct keys of existing posts, one full snapshot each, and left every other row untouched |
| GrowiDb.PostStepKeepsUnique | src/db/schema.ts:27-48 | a posts step keeps share URLs and (platform, external id) unique |
| GrowiDb.ExecutePostsKeepsUnique | src/db/schema.ts:27-48 | a posts statement keeps both unique indexes |
| GrowiDb.TransactionKeepsValid | src/db/schema.ts:26-68 | a committed transaction keeps every constraint: keys, unique indexes, and one metrics row per existing post |
| GrowiDb.GrowiStore.RunTransaction | src/growi/repository.ts:87-126 | the store changes exactly when both statements succeed, and then to their result; on failure nothing changes; the constraints are kept |
| GrowiDb.GrowiStore.constructor | src/db/schema.ts:23-68 | a fresh database has both tables empty and satisfies every constraint |
| GrowiApi.OutcomeAt | src/growi/private-client.ts:124-134 | a request beyond the scripted ones fails in transport |
| GrowiApi.ToErrorMessage | src/growi/private-client.ts:92-95 | the message is never empty: the body when there is one, otherwise `HTTP <status>` |
| GrowiApi.CatchToApiError | src/growi/private-client.ts:159-170 | a `GrowiApiError` passes through unchanged; anything else gets status 0 and the error's message, or the prefix and the thrown value's text |
| GrowiApi.Classify | src/growi/private-client.ts:106-171 | success exactly for a 2xx response whose JSON passes the schema and the extra check, with the parsed value; a failed `fetch` gives status 0; a non-2xx response gives its own status and its message |
| GrowiApi.Lookup | src/growi/private-client.ts:113-122 | absent exactly when no pair has the name |
| GrowiApi.LookupConcat | src/growi/private-client.ts:113-122 | in two runs of parameters the first run wins |
| GrowiApi.SetParam | src/growi/private-client.ts:113 | after `set`, the name reads back as the value set |
| GrowiApi.RemoveParam | src/growi/private-client.ts:113 | removing a name leaves no pair with it |
| GrowiApi.SetParamKeepsOthers | src/growi/private-client.ts:113-122 | `set` of one name leaves every other name's value alone |
| GrowiApi.RemoveParamKeepsOthers | src/growi/private-client.ts:113-122 | removing one name leaves every other name's value alone |
| GrowiApi.SetAllAppends | src/growi/private-client.ts:113-122 | setting distinct names that are not yet present appends the pairs in order |
| GrowiApi.SetParamAppends | src/growi/private-client.ts:113 | `set` of a name not yet present appends the pair |
| GrowiPrivateClient.GetGrowiApiConfig | src/growi/private-client.ts:68-90 | success exactly when the bearer token is a string, giving the four constants and the token; otherwise status 0 "Invalid Growi API config" |
| GrowiPrivateClient.ParseMeta | src/growi/private-client.ts:14-22 | accepts exactly an object whose `row_count`, `page_count` and `current_page` are numbers, whose `next_page` and `prev_page` are numbers or `null`, and whose `total_count` and `total_pages` are numbers when present; the meta is those properties read |
| GrowiPrivateClient.ParseRow | src/growi/private-client.ts:24-46 | a row passes exactly when its fields do; with `.passthrough()` the whole object is kept beside the fields |
| GrowiPrivateClient.ParsePage | src/growi/private-client.ts:50-53 | accepts exactly an object whose `data` is an array every element of which passes the row schema and whose `meta` passes the meta schema; the page has one row per element, each that element read as a row, and the meta read |
| GrowiPrivateClient.UserContentsRequest | src/growi/private-client.ts:108-122 | the request targets the organisation's `user_contents` path on the base URL, with the ten query parameters in order and their values |
| GrowiPrivateClient.UserContentsNamesDistinct | src/growi/private-client.ts:113-122 | the ten query names are distinct, so every `set` appends |
| GrowiPrivateClient.ClassifyUserContents | src/growi/private-client.ts:97-172 | a page exactly for a 2xx JSON body of the right shape; every error carries a non-2xx status: 0, 502 or the response's own; a 2xx JSON body of the wrong shape is the 502 "Unexpected Growi response shape (…)" with the first issue |
| GrowiPublicClient.ZGrowiInt | src/growi/public-client.ts:5-14 | accepts exactly a preprocessed value that is a non-negative safe integer, and returns it |
| GrowiPublicClient.GrowiIntOfNumber | src/growi/public-client.ts:5-14 | a non-negative safe integer given as a number is accepted as itself |
| GrowiPublicClient.GrowiIntOfInput | src/growi/public-client.ts:5-14 | only the preprocessed value matters |
| GrowiPublicClient.GrowiIntOfDigits | src/growi/public-client.ts:5-14 | a non-negative safe integer given as its decimal text is accepted as itself |
| GrowiPublicClient.RemoveAllIdempotent | src/growi/public-client.ts:7 | removing the commas twice is removing them once |
| GrowiPublicClient.GrowiIntOfBlank | src/growi/public-client.ts:6-13 | a text of only commas and white space stays a string and fails as not a number |
| GrowiPublicClient.GrowiIntIgnoresCommas | src/growi/public-client.ts:7 | a text is read the same with or without its commas |
| GrowiPublicClient.GrowiIntWithSeparator | src/growi/public-client.ts:7-9 | "1,234" is 1234 |
| GrowiPublicClient.GrowiIntRefusals | src/growi/public-client.ts:14 | a negative or fractional number fails, and so does a blank text |
| GrowiPublicClient.ParsePublicMetrics | src/growi/public-client.ts:16-21 | accepts exactly an object whose four counts are Growi integers, and reads them |
| GrowiPublicClient.ParseTopPost | src/growi/public-client.ts:23-35 | accepts exactly an object whose `id` is a Growi integer, `share_url` and `platform` strings, `metrics` a metrics object and every other field a string, `null` or missing; the post is those properties read |
| GrowiPublicClient.ParseTopPostsData | src/growi/public-client.ts:41-43 | accepts exactly an object whose `top_posts_by_views` is an array every element of which is a top post; one post per element, in order |
| GrowiPublicClient.ParsePublicMeta | src/growi/public-client.ts:44-50 | accepts exactly an object whose `current_page`, `row_count` and `page_count` are Growi integers, `per_page` a Growi integer when present and `has_more` a boolean when present; the meta is those properties read |
| GrowiPublicClient.ParseTopPostsResponse | src/growi/public-client.ts:39-51 | accepts exactly an object whose `success` is a boolean, whose `data` passes the data schema and whose `meta` passes the meta schema; the response is the flag, the posts and the meta read |
| GrowiPublicClient.GetGrowiPublicApiConfig | src/growi/public-client.ts:57-90 | success exactly when the key is a string that is not blank, kept trimmed; otherwise status 0 "Invalid Growi public API config" |
| GrowiPublicClient.TopPostsRequest | src/growi/public-client.ts:105-114 | the request targets the top-posts path; `page` is the page printed, `per_page` is there exactly when given, `include_gmv` is always "true" or "false" |
| GrowiPublicClient.TopPostsNamesDistinct | src/growi/public-client.ts:107-114 | the query names are distinct |
| GrowiPublicClient.TopPostsLookups | src/growi/public-client.ts:107-114 | reading back `page`, `include_gmv` and `per_page` gives what was set, and `per_page` is absent when not given |
| GrowiPublicClient.ClassifyTopPosts | src/growi/public-client.ts:103-169 | a response exactly for a 2xx JSON body of the right shape with `success` true; every error carries a non-2xx status; a wrong shape is the 502 "Unexpected Growi public response shape (…)" and `success: false` the 502 "Growi public API returned success=false" |
| GrowiSchema.DateText | src/growi/schema.ts:3 | a written date has ten characters |
| GrowiSchema.DateTextMatches | src/growi/schema.ts:3 | every month 1..12, day 1..31 and four-digit year matches, with no calendar check |
| GrowiSchema.MatchIsDateText | src/growi/schema.ts:3 | a matching string is the text of its own month, day and year, each in range |
| GrowiSchema.DateTextRoundTrip | src/growi/schema.ts:3 | reading a written date gives back its month, day and year |
| GrowiSchema.DatePatternExamples | src/growi/schema.ts:3 | 02/31/2024 matches; 13/01/2024, 2/01/2024, 02/01/24 and 00/10/2024 do not |
| GrowiSchema.DateSchema | src/growi/schema.ts:6-7 | accepts exactly the matching strings, unchanged |
| GrowiSchema.PerPageSchema | src/growi/schema.ts:8 | accepts exactly the safe integers 1..1000 |
| GrowiSchema.MaxPagesSchema | src/growi/schema.ts:9 | accepts exactly the safe integers of at least 1 |
| GrowiSchema.GrowiBackfillSchema | src/growi/schema.ts:5-10 | accepts exactly an object whose four fields are absent or valid; each result field is present exactly when given |
| GrowiSchema.BackfillIgnoresUnknownKeys | src/growi/schema.ts:5-10 | keys the schema does not name make no difference |
| GrowiSchema.BackfillBounds | src/growi/schema.ts:8-9 | a page size of 1 and 1000 passes, 0, 1001 and 2.5 fail; a page budget of 1 passes and 0 fails |
| TikHubText.FirstNonBlank | src/integrations/tikhub/video/schema.ts:99-100 | none exactly when every entry is blank; a found entry is non-empty and trimmed |
| TikHubText.FirstNonBlankAt | src/integrations/tikhub/video/schema.ts:99-100 | the entry found is the first that is not blank, trimmed |
| TikHubText.RunEnd | src/integrations/tikhub/video/schema.ts:116 | the run of tag characters from a position is maximal |
| TikHubText.TagsFrom | src/integrations/tikhub/video/schema.ts:116 | every tag is a non-empty run of tag characters that follows a '#' in the text |
| TikHubText.TagsFromExactly | src/integrations/tikhub/video/schema.ts:116 | when '#' is not itself a tag character the scan is complete and in order: one tag per '#' followed by a tag character, each the maximal run after it |
| TikHubText.DescriptionTags | src/integrations/tikhub/video/schema.ts:110-118 | every tag found is a whole match in the description, without its '#', and none is empty; when '#' is not a tag character they are exactly the maximal runs after each '#' that a tag character follows, one each, in the order of the text |
| TikHubText.TagsSkipPlain | src/integrations/tikhub/video/schema.ts:116 | a stretch without '#' holds no tag |
| TikHubText.NoHashNoTags | src/integrations/tikhub/video/schema.ts:110-118 | a description without '#' has no tags |
| TikHubText.TagThenRest | src/integrations/tikhub/video/schema.ts:116 | a '#' and a maximal run of tag characters yield that run, and the scan resumes after it |
| TikHubText.WordTag | src/integrations/tikhub/video/schema.ts:116 | a word of tag characters after a '#', ended by the text's end or a non-tag character, is the next tag |
| TikHubText.PlainPrefixSkipped | src/integrations/tikhub/video/schema.ts:116 | a prefix without '#' is skipped |
| TikHubText.TagsOfTwoWords | src/integrations/tikhub/video/schema.ts:110-118 | two '#'-marked words after a plain prefix, separated by a space, are exactly the two tags |
| TikHubText.LastWordTag | src/integrations/tikhub/video/schema.ts:116 | a '#' and a word at the very end are the last tag |
| TikHubText.StripLeadingHash | src/integrations/tikhub/video/schema.ts:120 | exactly one leading '#' is removed, and nothing else changes |
| TikHubText.NormalizeHashtagOfPaddedTag | src/integrations/tikhub/video/schema.ts:120 | a '#', white space, a word and white space normalise to the lower case of the word, as the bare word does |
| TikHubText.NormalizeHashtagKeepsSecondHash | src/integrations/tikhub/video/schema.ts:120 | of a doubled mark only the first '#' goes |
| TikHubText.NormalizeHashtagKeepsPaddedHash | src/integrations/tikhub/video/schema.ts:120 | the padding is trimmed only after the '#' test, so a mark behind leading white space stays |
| TikHubText.FirstIndex | src/integrations/tikhub/video/schema.ts:181-186 | the index of the first occurrence |
| TikHubText.Dedupe | src/integrations/tikhub/video/schema.ts:181-186 | the same values as the input, each once, in the order of first occurrence |
| TikHubText.DedupeOfDistinct | src/integrations/tikhub/video/schema.ts:181-186 | a list without repeats is its own de-duplication |
| TikHubText.DedupeAbsorbs | src/integrations/tikhub/video/schema.ts:181-186 | values already seen add nothing |
| TikHubText.DedupeKeepsPrefix | src/integrations/tikhub/video/schema.ts:181-186 | what comes later never reorders what came first |
| TikHubText.NormalizeDurationMs | src/integrations/tikhub/video/schema.ts:127-133 | absent stays absent; at least 1000 is milliseconds, rounded; below is seconds, scaled and rounded |
| TikHubText.DurationUnitsAgree | src/integrations/tikhub/video/schema.ts:122-133 | whole seconds 1..999 and the same duration in milliseconds normalise alike |
| TikHubText.DurationAtLeastOneSecond | src/integrations/tikhub/video/schema.ts:122-126 | a duration of at least one second, in either unit, is at least 1000 ms |
| TikHubVideo.OptionalNumber | src/integrations/tikhub/video/schema.ts:8 | never fails, and holds the normalised number |
| TikHubVideo.OptionalString | src/integrations/tikhub/video/schema.ts:9-12 | accepts exactly a normalised value that is absent or a non-empty string |
| TikHubVideo.AddressSchema | src/integrations/tikhub/video/schema.ts:14-17 | accepts exactly an object whose `uri` is absent or a string and whose `url_list` is absent or an array of strings |
| TikHubVideo.OptionalAddress | src/integrations/tikhub/video/schema.ts:21-26 | an absent address is none; a present one must pass the address schema |
| TikHubVideo.AddressAt | src/integrations/tikhub/video/schema.ts:19-27 | a property read as an optional address, reported under its key |
| TikHubVideo.StringAt | src/integrations/tikhub/video/schema.ts:37-62 | a property read by the optional string schema, reported under its key |
| TikHubVideo.VideoSchema | src/integrations/tikhub/video/schema.ts:19-27 | accepts exactly an object whose six addresses each pass; the duration is normalised and each address kept |
| TikHubVideo.MusicSchema | src/integrations/tikhub/video/schema.ts:29-31 | accepts exactly an object whose `play_url` is absent or an address, and keeps that address |
| TikHubVideo.HashtagSchema | src/integrations/tikhub/video/schema.ts:33-35 | accepts exactly an object whose `cha_name` is absent or a non-empty string, and keeps that name |
| TikHubVideo.AuthorSchema | src/integrations/tikhub/video/schema.ts:37-41 | accepts exactly an object whose `uid`, `unique_id` and `nickname` pass the optional string schema, and keeps the three |
| TikHubVideo.StatisticsSchema | src/integrations/tikhub/video/schema.ts:43-48 | every object passes, and nothing else; each of the four counts is its normalised number |
| TikHubVideo.DetailSchema | src/integrations/tikhub/video/schema.ts:50-62 | accepts exactly an object each of whose fields passes its schema; the record holds each parsed field, creation time and duration normalised |
| TikHubVideo.ResponseSchema | src/integrations/tikhub/video/schema.ts:64-70 | accepts exactly an object whose `data` is an object whose `aweme_details`, `aweme_detail` and `video` pass; the result holds the three |
| TikHubVideo.FirstUrl | src/integrations/tikhub/video/schema.ts:96-108 | a found URL is non-empty and trimmed; none exactly when the address is absent, or its list is all blank and its `uri` is blank |
| TikHubVideo.UrlListBeforeUri | src/integrations/tikhub/video/schema.ts:99-104 | the first non-blank list entry wins over `uri` |
| TikHubVideo.UriFallback | src/integrations/tikhub/video/schema.ts:106-107 | `uri`, trimmed, is the fallback when the list gives nothing |
| TikHubVideo.FirstDetail | src/integrations/tikhub/video/schema.ts:149 | the first of `aweme_details` when there is one, otherwise `aweme_detail` |
| TikHubVideo.SelectedVideo | src/integrations/tikhub/video/schema.ts:150 | the detail's video when there is one, otherwise the top-level video |
| TikHubVideo.DownloadUrl | src/integrations/tikhub/video/schema.ts:151-153 | watermark-free first; none exactly when all three addresses give nothing; a found URL is non-empty and trimmed |
| TikHubVideo.AwemeId | src/integrations/tikhub/video/schema.ts:164 | `aweme_id` first, then `aweme_id_str`, both from the selected detail |
| TikHubVideo.TopicNames | src/integrations/tikhub/video/schema.ts:175-177 | a value is kept exactly when some topic has it as its name; never more names than topics; one topic gives its name or nothing |
| TikHubVideo.TopicNamesAppend | src/integrations/tikhub/video/schema.ts:175-177 | the names of two topic lists are those of the first followed by those of the second, so order is kept |
| TikHubVideo.TopicHashtags | src/integrations/tikhub/video/schema.ts:174-178 | no detail or no topic list gives no hashtags; otherwise the present names, in order, each normalised |
| TikHubVideo.DescriptionHashtags | src/integrations/tikhub/video/schema.ts:180-184 | no description gives no hashtags; otherwise, when '#' is not a letter or digit, one hashtag per tag start of the description, in order, each the normalised run after it |
| TikHubVideo.Hashtags | src/integrations/tikhub/video/schema.ts:181-186 | no value twice, and exactly the topic and description hashtags |
| TikHubVideo.TopicsLead | src/integrations/tikhub/video/schema.ts:181-186 | the hashtags start with the de-duplicated topics in order; the description only adds after them |
| TikHubVideo.ExtractFromData | src/integrations/tikhub/video/schema.ts:148-217 | an error exactly when there is no download URL or no video id, with the message for each, the URL checked first; a success carries the trimmed download URL, the id, and hashtags without repeats |
| TikHubVideo.ExtractTikHubVideoInfo | src/integrations/tikhub/video/schema.ts:135-230 | a payload the schema refuses is "TikHub response schema mismatch"; otherwise the result from the parsed data |
| TikHubVideo.NullAddressIsMismatch | src/integrations/tikhub/video/schema.ts:21 | a `null` watermark-free address makes the payload a schema mismatch |
| TikHubVideo.EmptyVideoHasNoDownload | src/integrations/tikhub/video/schema.ts:155-162 | an empty video record passes the schema but has no download URL |
| TikHubVideo.NothingToDownload | src/integrations/tikhub/video/schema.ts:155-162 | no detail and an empty video give the no-download error |
| TikHubVideo.SingleUrl | src/integrations/tikhub/video/schema.ts:96-108 | a single trimmed URL in a list is what the address yields |
| TikHubVideo.DedupeTwice | src/integrations/tikhub/video/schema.ts:181-186 | two values met twice are kept once each, in order |
| TikHubVideo.SampleTopics | src/features/tiktok/route.test.ts:81-205 | the route test's topics give its two hashtags |
| TikHubVideo.NormalizeTwo | src/integrations/tikhub/video/schema.ts:120 | words without '#' or white space normalise to their lower case |
| TikHubVideo.TwoWordDescription | src/integrations/tikhub/video/schema.ts:110-118 | two lower-case '#'-words after a plain prefix are the description's hashtags |
| TikHubVideo.SampleDescriptionTags | src/features/tiktok/route.test.ts:81-205 | the route test's description gives "travelhacks" and "familyvacation" |
| TikHubVideo.SampleHashtags | src/features/tiktok/route.test.ts:190-203 | the topics found again in the description are each kept once |
| TikHubVideo.SampleVideoInfo | src/features/tiktok/route.test.ts:81-205 | the route test's answer yields the reported video: watermark-free link, original cover, duration in ms, creation time, hashtags once |
| TikHubVideo.ExtractedVideoInfo | src/integrations/tikhub/video/schema.ts:194-217 | the record is assembled field by field from the selected detail and video |
| TikHubVideo.SampleLinks | src/integrations/tikhub/video/schema.ts:151-153 | the sample's watermark-free address and original cover give its download and thumbnail URLs |
| TikHubVideo.OnlyUrl | src/integrations/tikhub/video/schema.ts:96-108 | an address holding one trimmed URL yields it |
| TikHubVideo.SampleFacts | src/features/tiktok/route.test.ts:190-203 | the sample's id, duration 26267 ms, no audio, and its creation date |
| TikHubLegacy.NumericPreprocess | src/integrations/tikhub/schema.ts:6-26 | undefined exactly when the value does not normalise to a number; otherwise what it yields coerces to that number |
| TikHubLegacy.StringPreprocess | src/integrations/tikhub/schema.ts:31-41 | a string trimmed, undefined when blank; a finite number as it is; anything else undefined |
| TikHubLegacy.NumberFieldAsWritten | src/integrations/tikhub/schema.ts:5-28 | absent passes as absent; a present value passes exactly when it reads as a finite number, so `null` or a bad string fails the field |
| TikHubLegacy.StringFieldAsWritten | src/integrations/tikhub/schema.ts:30-42 | absent passes as absent; a present value that pre-processes to undefined becomes the text "undefined"; a non-blank string is trimmed |
| TikHubLegacy.CoercedText | src/integrations/tikhub/schema.ts:42 | the coerced text is trimmed, "undefined" for an undefined input |
| TikHubLegacy.StringCoercion | src/integrations/tikhub/schema.ts:42 | `String` then `.trim()` gives "undefined" for undefined, and the trimmed string for a non-blank one |
| TikHubLegacy.UndefinedIsTrimmed | src/integrations/tikhub/schema.ts:42 | "undefined" is its own trim |
| TikHubLegacy.NumberField | src/integrations/tikhub/schema.ts:5-28 | never fails: the normalised number, or absent |
| TikHubLegacy.StringField | src/integrations/tikhub/schema.ts:30-42 | never fails; blank, `null` and other non-text values are absent; a kept text is non-empty and trimmed |
| TikHubLegacy.NumberFieldCorrection | src/integrations/tikhub/schema.ts:5-28 | both readings agree where the value is absent or reads as a number; elsewhere only the first fails |
| TikHubLegacy.StringFieldCorrection | src/integrations/tikhub/schema.ts:30-42 | both readings agree on absent values and non-blank strings; elsewhere only the first reads "undefined" |
| TikHubLegacy.NumberFieldOf | src/integrations/tikhub/schema.ts:49 | either reading yields the normalised number; corrected never fails; as written fails exactly for a present value that reads as no number |
| TikHubLegacy.StringFieldOf | src/integrations/tikhub/schema.ts:59 | picks the reading as written or corrected |
| TikHubLegacy.AddressSchema | src/integrations/tikhub/schema.ts:44-46 | accepts exactly an object whose `url_list` is absent or an array of strings; `uri` is never read |
| TikHubLegacy.OptionalAddress | src/integrations/tikhub/schema.ts:50-55 | an absent address is none; a present one must pass the address schema |
| TikHubLegacy.AddressAt | src/integrations/tikhub/schema.ts:48-56 | a property read as an optional address, reported under its key |
| TikHubLegacy.VideoSchema | src/integrations/tikhub/schema.ts:48-56 | accepts exactly an object whose duration passes the numeric field schema and whose six addresses pass; the duration is normalised and each address kept |
| TikHubLegacy.HashtagSchema | src/integrations/tikhub/schema.ts:58-60 | accepts exactly an object whose `cha_name` passes the string field schema, and keeps what it reads |
| TikHubLegacy.AuthorSchema | src/integrations/tikhub/schema.ts:62-66 | accepts exactly an object whose three names pass the string field schema, and keeps them; corrected every object passes |
| TikHubLegacy.StatisticsSchema | src/integrations/tikhub/schema.ts:68-73 | accepts exactly an object whose four counts pass the numeric field schema, each normalised |
| TikHubLegacy.DetailSchema | src/integrations/tikhub/schema.ts:75-85 | accepts exactly an object every property of which passes its schema; the record holds each property, creation time and duration normalised, the description as the string field reads it, no music |
| TikHubLegacy.DetailsKey | src/integrations/tikhub/schema.ts:89 | absent is none; otherwise it passes exactly when every detail in the array does, and holds them |
| TikHubLegacy.DetailKey | src/integrations/tikhub/schema.ts:90 | absent is none; otherwise it passes exactly when the detail does, and holds it |
| TikHubLegacy.ResponseSchema | src/integrations/tikhub/schema.ts:87-93 | accepts exactly an object whose `data` is an object whose `aweme_details`, `aweme_detail` and `video` pass; the result holds the three |
| TikHubLegacy.FirstUrl | src/integrations/tikhub/schema.ts:121-126 | a found URL is non-empty and trimmed; none exactly when there is no address or its list is all blank |
| TikHubLegacy.FirstUrlAgreesWithoutUri | src/integrations/tikhub/schema.ts:121-126 | without a `uri` it agrees with the newer extractor; with a blank list and a usable `uri` only the newer one finds a link |
| TikHubLegacy.DownloadUrl | src/integrations/tikhub/schema.ts:174-176 | watermark-free first; none exactly when all three addresses give nothing |
| TikHubLegacy.ThumbnailUrl | src/integrations/tikhub/schema.ts:223-226 | the original cover, then the cover, then the dynamic cover: the first that yields a link; none exactly when all three give nothing; a found URL is non-empty and trimmed |
| TikHubLegacy.DownloadUrlAgrees | src/integrations/tikhub/schema.ts:174-176 | on a video without `uri`s the link is the one the newer extractor picks |
| TikHubLegacy.AwemeId | src/integrations/tikhub/schema.ts:187 | `aweme_id`, then `aweme_id_str`, then the random fallback |
| TikHubLegacy.DescriptionHashtags | src/integrations/tikhub/schema.ts:128-136 | no description gives no hashtags; otherwise one hashtag per ASCII tag start, in order, each the normalised run after it |
| TikHubLegacy.Hashtags | src/integrations/tikhub/schema.ts:196-201 | no value twice, and exactly the topic and description hashtags |
| TikHubLegacy.TopicHashtags | src/integrations/tikhub/schema.ts:189-193 | no topic list gives none; otherwise the present names in order, each normalised, the same as the newer extractor gives |
| TikHubLegacy.TopicsLead | src/integrations/tikhub/schema.ts:196-201 | the hashtags start with the de-duplicated topics |
| TikHubLegacy.ExtractFromData | src/integrations/tikhub/schema.ts:171-228 | an error exactly when there is no download URL, with the no-download message; a success carries the trimmed link, the id or its random fallback, and hashtags without repeats |
| TikHubLegacy.ExtractedVideoInfo | src/integrations/tikhub/schema.ts:203-228 | the record is assembled field by field from the selected detail and video |
| TikHubLegacy.ExtractTikHubVideoInfo | src/integrations/tikhub/schema.ts:158-229 | a payload the schema refuses is "TikHub response schema mismatch"; otherwise the result from the parsed data |
| TikHubLegacy.ExtractTikHubDownloadInfo | src/integrations/tikhub/schema.ts:231-237 | the id and link of the video info, with its errors passed on |
| TikHubLegacy.ExtractorsAgreeOnLink | src/integrations/tikhub/schema.ts:158-229 | both extractors find a link on the same videos; where the newer one succeeds the older one gives the same id and link |
| TikHubLegacy.NullCountFailsPayload | src/integrations/tikhub/schema.ts:5-28 | a `null` play count makes the whole payload a schema mismatch as written; corrected it is only absent |
| TikHubLegacy.ResponseOfDetail | src/integrations/tikhub/schema.ts:87-93 | a payload holding only `aweme_detail` passes exactly when that detail does |
| TikHubLegacy.NullCountStatistics | src/integrations/tikhub/schema.ts:68-73 | statistics with a `null` play count fail as written and pass corrected |
| TikHubLegacy.DetailOfStatistics | src/integrations/tikhub/schema.ts:75-85 | a detail holding only `statistics` passes exactly when they do |
| TikHubLegacy.NullDescriptionReadsUndefined | src/integrations/tikhub/schema.ts:30-42 | a `null` description reads "undefined" as written and is absent corrected |
| TikHubLegacy.NullStringField | src/integrations/tikhub/schema.ts:30-42 | `null` gives "undefined" as written and absent corrected |
| TikHubLegacy.DetailOfDescription | src/integrations/tikhub/schema.ts:75-85 | a detail holding only `desc` carries what the string field makes of it |
| TikHubLegacy.BlankStringReadsUndefined | src/integrations/tikhub/schema.ts:30-42 | a blank description reads "undefined" as written and is absent corrected |
| TikHubProfile.OptionalBoolean | src/integrations/tikhub/profile/schema.ts:7-15 | accepts exactly a normalised value that is absent or a boolean, and returns it |
| TikHubProfile.StringKey | src/integrations/tikhub/profile/schema.ts:7-15 | a property read by the optional string field schema |
| TikHubProfile.NumberKey | src/integrations/tikhub/profile/schema.ts:7-15 | a property read by the numeric field schema never fails and is normalised |
| TikHubProfile.BioLinkSchema | src/integrations/tikhub/profile/schema.ts:17-34 | accepts exactly an object whose `link` is absent or a non-empty string, and keeps it |
| TikHubProfile.CommerceUserInfoSchema | src/integrations/tikhub/profile/schema.ts:17-34 | accepts exactly an object whose `category` is absent or a non-empty string, and keeps it |
| TikHubProfile.BooleanKey | src/integrations/tikhub/profile/schema.ts:17-34 | a property read by the optional boolean schema, reported under its key |
| TikHubProfile.BioLinkKey | src/integrations/tikhub/profile/schema.ts:31 | absent is none; otherwise it passes exactly when the link schema does, and holds its result |
| TikHubProfile.CommerceKey | src/integrations/tikhub/profile/schema.ts:32 | absent is none; otherwise it passes exactly when the commerce schema does, and holds its result |
| TikHubProfile.UserSchema | src/integrations/tikhub/profile/schema.ts:17-34 | accepts exactly an object each of whose fields passes its schema; the record holds each field, the creation time normalised, the id and `verified` as their field schemas give them |
| TikHubProfile.StatsSchema | src/integrations/tikhub/profile/schema.ts:36-43 | every object passes, its six counts normalised |
| TikHubProfile.ResponseSchema | src/integrations/tikhub/profile/schema.ts:45-53 | accepts exactly a payload whose `data.userInfo` is an object whose `user` passes the user schema and whose two statistics records pass; the result holds all three, each record present exactly when given |
| TikHubProfile.FirstPresent | src/integrations/tikhub/profile/schema.ts:107-112 | none exactly when every value is none; otherwise the first value present |
| TikHubProfile.ProfileStatsOf | src/integrations/tikhub/profile/schema.ts:107-112 | each count is the first present of its chain: `statsV2` first for followers, videos and friends, `stats` first for followings, and `heartCount` before `heart` for likes |
| TikHubProfile.PairChain | src/integrations/tikhub/profile/schema.ts:107-112 | a chain of two is the first when present, else the second |
| TikHubProfile.StatsPrecedence | src/integrations/tikhub/profile/schema.ts:107-112 | the leading record wins each count, and the other fills in what it lacks |
| TikHubProfile.LikeCountChain | src/integrations/tikhub/profile/schema.ts:110 | the like count is the first present of `statsV2.heartCount`, `statsV2.heart`, `stats.heartCount`, `stats.heart` |
| TikHubProfile.SingleStatsRecord | src/integrations/tikhub/profile/schema.ts:107-112 | where only one record is sent, its counts are taken as they are |
| TikHubProfile.ProfileOf | src/integrations/tikhub/profile/schema.ts:114-134 | each profile field is the user field of the same meaning (`uniqueId` the username, `signature` the bio, `avatarLarger` the large avatar, the link and category out of their records); the creation time is kept as given and rendered by the shared timestamp conversion, a date implies a time; the counts are the merged ones |
| TikHubProfile.ExtractTikHubProfileInfo | src/integrations/tikhub/profile/schema.ts:90-148 | an error exactly when the schema refuses the payload, "TikHub profile response schema mismatch"; otherwise the profile of the parsed answer |
| TikHubProfile.ProfileFromPayload | src/integrations/tikhub/profile/schema.ts:90-134 | from an accepted payload each profile field is what its field schema reads from the property of the same meaning under `data.userInfo.user` |
| TikHubProfile.MissingUserIsMismatch | src/integrations/tikhub/profile/schema.ts:45-53 | an answer without `data.userInfo.user` is a schema mismatch |
| TikHubProfile.EmptyUserGivesNulls | src/integrations/tikhub/profile/schema.ts:114-134 | a user whose fields are all absent gives a profile of nulls, with the counts still taken from the statistics |
| WorkersAiSchema.TimeSecond | src/integrations/workers-ai/schema.ts:6-8 | accepts exactly a finite number that is not negative; a negative one fails with the timestamp message |
| WorkersAiSchema.OptionalTime | src/integrations/workers-ai/schema.ts:6-8 | absent, or a time that passes |
| WorkersAiSchema.WordSchema | src/integrations/workers-ai/schema.ts:10-14 | accepts exactly an object whose word is absent or a string and whose times are absent or valid, and returns them |
| WorkersAiSchema.WordsSchema | src/integrations/workers-ai/schema.ts:16-21 | accepts exactly an array of valid words, one result per element |
| WorkersAiSchema.OptionalWords | src/integrations/workers-ai/schema.ts:16-21 | absent, or an array of valid words |
| WorkersAiSchema.SegmentSchema | src/integrations/workers-ai/schema.ts:16-21 | accepts exactly an object whose text, times and words are absent or valid |
| WorkersAiSchema.OptionalSegments | src/integrations/workers-ai/schema.ts:23-30 | absent exactly when not given; otherwise one valid segment per element |
| WorkersAiSchema.InfoSchema | src/integrations/workers-ai/schema.ts:23-30 | accepts exactly an object whose language and duration are absent or valid |
| WorkersAiSchema.OptionalInfo | src/integrations/workers-ai/schema.ts:23-30 | absent, or valid information |
| WorkersAiSchema.RawSchema | src/integrations/workers-ai/schema.ts:23-30 | a text is required and trimmed; segments and information are optional; every accepted answer satisfies the raw invariants |
| WorkersAiSchema.SegmentsKey | src/integrations/workers-ai/schema.ts:23-30 | the segments of an accepted answer each satisfy the segment invariant |
| WorkersAiSchema.InfoKey | src/integrations/workers-ai/schema.ts:23-30 | the information of an accepted answer has a valid language and duration |
| WorkersAiSchema.Emit | src/integrations/workers-ai/schema.ts:55-97 | a candidate is kept, with no confidence, exactly when it has text and both times with end not before start |
| WorkersAiSchema.WordsOf | src/integrations/workers-ai/schema.ts:55-76 | never more segments than words; exactly the usable words; valid when the words are |
| WorkersAiSchema.WordLevelSegments | src/integrations/workers-ai/schema.ts:55-76 | exactly the usable words of every segment; valid when the segments are |
| WorkersAiSchema.FallbackSegments | src/integrations/workers-ai/schema.ts:78-97 | never more than the segments; exactly the usable segments, their words ignored; valid when the segments are |
| WorkersAiSchema.WordsOfAppend | src/integrations/workers-ai/schema.ts:60-75 | the word extractor keeps the input's order |
| WorkersAiSchema.WordLevelAppend | src/integrations/workers-ai/schema.ts:55-76 | the word-level extractor keeps the input's order |
| WorkersAiSchema.FallbackAppend | src/integrations/workers-ai/schema.ts:78-97 | the segment-level extractor keeps the input's order |
| WorkersAiSchema.Transform | src/integrations/workers-ai/schema.ts:106-119 | text, language and duration pass through; the word-level segments when there are any, otherwise the segment-level ones |
| WorkersAiSchema.WordTimingsWin | src/integrations/workers-ai/schema.ts:114 | one usable word anywhere decides for word timings |
| WorkersAiSchema.WordsOfEmpty | src/integrations/workers-ai/schema.ts:55-76 | a segment's words give nothing exactly when none is usable |
| WorkersAiSchema.WordLevelEmpty | src/integrations/workers-ai/schema.ts:55-76 | the word-level extractor finds nothing exactly when no segment's words give anything |
| WorkersAiSchema.SegmentFallbackWithoutWords | src/integrations/workers-ai/schema.ts:114 | with no usable word anywhere, the segment timings are used |
| WorkersAiSchema.CheckSegment | src/integrations/workers-ai/schema.ts:32-51 | accepts exactly a valid segment, unchanged; empty text and an end before the start fail with their own messages |
| WorkersAiSchema.CheckSegments | src/integrations/workers-ai/schema.ts:99-104 | accepts exactly when every segment from the index on is valid |
| WorkersAiSchema.NormalizedSchema | src/integrations/workers-ai/schema.ts:99-104 | accepts exactly valid segments, a non-empty language and a valid duration, unchanged |
| WorkersAiSchema.TransformIsNormalized | src/integrations/workers-ai/schema.ts:106-137 | the normalised schema never refuses what the transform builds, so its mismatch cannot occur after the raw schema |
| WorkersAiSchema.ExtractWorkersAiTranscription | src/integrations/workers-ai/schema.ts:123-137 | an error always carries the mismatch message; a raw mismatch is an error; success is the transform of the raw answer |
| WorkersAiSchema.ExtractFailsOnlyOnRawMismatch | src/integrations/workers-ai/schema.ts:123-137 | the answer is refused exactly when the raw schema refuses it |
| WorkersAiSchema.HelloWorldWords | src/integrations/workers-ai/client.test.ts:12-66 | "hello" and "world" become two timed segments with no confidence; text, language and duration pass through |
| WorkersAiSchema.MissingTextIsMismatch | src/integrations/workers-ai/client.test.ts:125-157 | an object without `text` is a schema mismatch |
| WorkersAiSchema.NegativeTimestampIsMismatch | src/integrations/workers-ai/schema.ts:6-8 | a negative segment start fails the whole answer |
| WorkersAiSchema.NegativeDurationIsMismatch | src/integrations/workers-ai/schema.ts:6-8 | a negative duration fails the whole answer |
| WorkersAiSchema.NegativeWordTimestampIsMismatch | src/integrations/workers-ai/schema.ts:6-8 | a negative word timestamp anywhere fails the whole answer |
| SharedNumber.NormalizeNumberValue | src/shared/schemas/number.ts:2-18 | a finite number is itself; a non-finite number and every other non-string are absent; a string counts exactly when it is not blank and reads as a finite number, and then as that number |
| SharedNumber.NormalizedText | src/shared/schemas/number.ts:11-17 | a string is absent exactly when its trim is empty or does not read as a finite number; otherwise it is the number its trim reads as |
| SharedNumber.NormalizeNumberValueIdempotent | src/shared/schemas/number.ts:2-18 | a normalised value normalises to itself |
| SharedNumber.NormalizeNumberValueOfDecimal | src/shared/schemas/number.ts:11-17 | a decimal integer string, padded with white space, normalises to its value |
| SharedNumber.NormalizeNumberValueOfBlank | src/shared/schemas/number.ts:12-14 | a blank string is absent, not the 0 that `Number` would read |
| SharedString.NormalizeTrimmedString | src/shared/schemas/string.ts:3-4 | strings are trimmed, and every other value passes through |
| SharedString.NormalizeOptionalTrimmedString | src/shared/schemas/string.ts:6-13 | a blank string becomes undefined, others are trimmed and non-empty, other values pass through |
| SharedString.NormalizedStringsAreTrimmed | src/shared/schemas/string.ts:3-13 | a string out of either normaliser has no surrounding white space |
| SharedString.NormalizeTrimmedStringIdempotent | src/shared/schemas/string.ts:3-4 | normalising twice is normalising once |
| SharedString.NormalizeOptionalTrimmedStringIdempotent | src/shared/schemas/string.ts:6-13 | normalising twice is normalising once |
| SharedString.TrimmedStringSchema | src/shared/schemas/string.ts:15-18 | accepts exactly strings, returned trimmed |
| SharedString.OptionalTrimmedStringSchema | src/shared/schemas/string.ts:20-23 | accepts exactly undefined and strings; none exactly for undefined or a blank string; otherwise the trimmed, non-empty text |
| SharedDate.TimestampDate | src/shared/date.ts:9-10 | at or above 10^12 the value is milliseconds, below it seconds; a non-finite value is an Invalid Date |
| SharedDate.UnixTimestampToIso | src/shared/date.ts:5-13 | absent stays null; otherwise a text exactly when the date is valid, and then its ISO rendering |
| SharedDate.SecondsInRangeAreValid | src/shared/date.ts:9-12 | every value read as seconds gives a date |
| SharedDate.ThresholdIsTheSwitch | src/shared/date.ts:9-12 | every millisecond reading up to the largest date gives that date |
| SharedDate.NonFiniteHasNoIso | src/shared/date.ts:11-12 | NaN and the infinities give null |
| SharedDate.SecondsAndMillisecondsAgree | src/shared/date.ts:1-13 | a timestamp in seconds and the same instant in milliseconds render alike |
| SharedDate.UnixTimestampOfSeptember2025 | src/shared/date.ts:5-13 | 1758110287 renders as 2025-09-17T11:58:07.000Z |
| SharedEnv.GetRequiredBindingString | src/shared/env.ts:4-19 | the trimmed, non-empty binding exactly when it is present, a string and not blank; otherwise a configuration error naming the key |
| SharedEnv.GetRequiredBindingStringIdempotent | src/shared/env.ts:4-19 | a binding read back reads as itself |
| SharedEnv.MissingBindingIsServerError | src/features/tiktok/route.test.ts:217-239 | a missing binding reaches the client as status 500 with the fixed configuration message and code `ConfigurationError` |
| LibDate.UnixSecondsToDate | src/lib/date.ts:3-14 | a date exactly for positive finite seconds whose milliseconds fit a `Date`; otherwise a `RangeError` naming the value |
| LibDate.IsoToDate | src/lib/date.ts:16-23 | a date exactly when the text parses, otherwise a `RangeError` naming the text |
| LibDate.UnixSecondsOfWholeSeconds | src/lib/date.ts:3-14 | whole seconds convert exactly to milliseconds |
| LibDate.UnixSecondsRejectsZero | src/lib/date.ts:4-6 | zero seconds is refused, with the message "Invalid unix timestamp seconds: 0" |
| AppErrors.NewDbConnectionError | src/shared/errors/app-error.ts:4-12 | the cause is kept, and the message is "Database connection failed: " and the cause's message or text |
| AppErrors.NewDbQueryError | src/shared/errors/app-error.ts:14-23 | the operation and cause are kept, and the message names both |
| AppErrors.NewUpstreamRequestError | src/shared/errors/app-error.ts:37-49 | an explicit message wins; otherwise the message names the service and the cause |
| AppErrors.ToApiError | src/shared/errors/app-error.ts:70-103 | the code is the tag; 404 exactly for not found, 502 exactly for upstream errors, 500 exactly for database, internal and configuration errors; each class has its own fixed message |
| AppErrors.TagDeterminesClass | src/shared/errors/app-error.ts:56-68 | two errors with the same tag are of the same class |
| AppErrors.ToApiErrorHidesDetails | src/shared/errors/app-error.ts:70-103 | the response depends on the class only: no message, operation, service or cause reaches the client |
| LegacyErrors.NewDbConnectionError | src/errors/app-error.ts:4-12 | the cause is kept, and the message is "Database connection failed: " and the cause's message or text |
| LegacyErrors.NewDbQueryError | src/errors/app-error.ts:14-23 | the operation and cause are kept, and the message names both |
| LegacyErrors.ToApiError | src/errors/app-error.ts:37-58 | the code is the tag; 404 exactly for not found, 500 otherwise; not-found and internal errors show their own message, the two database classes a fixed one |
| LegacyErrors.ToApiErrorHidesDatabaseDetails | src/errors/app-error.ts:41-48 | database failures never expose their operation, message or cause |
| PostsSchema.BoundedText | src/features/posts/schema.ts:4-16 | accepts exactly a string whose trimmed length is 1..max, returned trimmed; too short and too long fail with their own messages |
| PostsSchema.TitleSchema | src/features/posts/schema.ts:4-9 | accepts exactly a string whose trimmed length is 1..300, returned trimmed |
| PostsSchema.BodySchema | src/features/posts/schema.ts:11-16 | accepts exactly a string whose trimmed length is 1..50000, returned trimmed |
| PostsSchema.PublishedSchema | src/features/posts/schema.ts:22 | absent or a boolean |
| PostsSchema.CreatePostSchema | src/features/posts/schema.ts:18-24 | accepts exactly an object whose three fields pass, with title and body trimmed; a bad title is reported under `title` |
| PostsSchema.CreatePostIgnoresUnknownKeys | src/features/posts/schema.ts:24 | keys the schema does not name make no difference |
| PostsSchema.CreatePostIdempotent | src/features/posts/schema.ts:18-24 | an accepted post, written back trimmed, gives the same post again |
| PostsSchema.TitleAndBodyLimits | src/features/posts/schema.ts:7-15 | a title of n letters passes exactly for 1..300, a body for 1..50000; a blank title fails with "title cannot be empty" |
| LegacyPostsSchema.CreatePostSchema | src/posts/schema.ts:3-7 | accepts exactly an object with a non-empty title and body and an optional flag, untrimmed |
| LegacyPostsSchema.BlankPostAcceptedOnlyHere | src/posts/schema.ts:4-5 | a white-space title and body are kept here and refused by the newer schema |
| LegacyPostsSchema.SchemasAgreeOnTrimmedPosts | src/posts/schema.ts:3-7 | both schemas accept a trimmed post within the newer bounds, and agree on it |
| TikTokSchema.IsTikTokHost | src/features/tiktok/schema.ts:3-10 | true only for a string that parses as a URL |
| TikTokSchema.TikTokHostnames | src/features/tiktok/schema.ts:6 | the host rule accepts `tiktok.com` and every name ending in `.tiktok.com`, and nothing else |
| TikTokSchema.LookAlikeHostsRejected | src/features/tiktok/schema.ts:6 | eviltiktok.com and tiktok.com.evil.com are refused; www and vm subdomains pass |
| TikTokSchema.ShareUrl | src/features/tiktok/schema.ts:13-15 | accepts exactly a string whose trimmed form parses as a URL on a TikTok host, and returns that trimmed form |
| TikTokSchema.TikTokDownloadQuerySchema | src/features/tiktok/schema.ts:12-16 | accepts exactly an object whose `share_url`, trimmed, is a TikTok link, and returns it trimmed; a string that parses on another host fails with the TikTok message, one that does not parse with "Invalid URL", both under `share_url` |
| TikTokSchema.OtherSiteRejected | src/features/tiktok/schema.ts:15 | a link to example.com fails under `share_url` with "share_url must be a TikTok URL" |
| TikTokVideoSchema.HostRulesAgree | src/features/tiktok/video/schema.ts:7 | the case-insensitive host pattern accepts the same hosts as the lower-casing rule of the download query |
| TikTokVideoSchema.ShareUrlSchema | src/features/tiktok/video/schema.ts:4-9 | accepts exactly a trimmed string that parses with a TikTok host and an http or https protocol, returned trimmed |
| TikTokVideoSchema.ShareUrlQuerySchema | src/features/tiktok/video/schema.ts:11-13 | accepts exactly an object whose `share_url` passes, returned trimmed |
| TikTokVideoSchema.PaddingIgnored | src/features/tiktok/video/schema.ts:4 | white space around the link makes no difference |
| TikTokVideoSchema.AgreesWithDownloadQuery | src/features/tiktok/video/schema.ts:4-13 | on a trimmed http(s) link the info and download queries accept the same links |
| TikTokVideoSchema.OtherProtocolRejected | src/features/tiktok/video/schema.ts:6 | an ftp link to a TikTok host fails here and passes the download query |
| TikTokProfileSchema.StripLeadingAt | src/features/tiktok/profile/schema.ts:5 | exactly one leading '@' is removed |
| TikTokProfileSchema.UsernameCharsAreBmp | src/features/tiktok/profile/schema.ts:10-11 | for usernames the UTF-16 length is the character count |
| TikTokProfileSchema.UsernameSchema | src/features/tiktok/profile/schema.ts:4-12 | accepts exactly a string that, trimmed and without one '@', is 1..64 allowed characters; each bound fails with its own message |
| TikTokProfileSchema.UsernameIdempotent | src/features/tiktok/profile/schema.ts:4-12 | an accepted username has no '@' and is accepted again as itself |
| TikTokProfileSchema.UsernameIsTrimmed | src/features/tiktok/profile/schema.ts:11 | a username is its own trimmed, '@'-free form |
| TikTokProfileSchema.LeadingAtOptional | src/features/tiktok/profile/schema.ts:5 | `@name` and `name` are the same username |
| TikTokProfileSchema.LoneAtRejected | src/features/tiktok/profile/schema.ts:5-9 | "@" alone fails as empty |
| TikTokProfileSchema.DoubleAtRejected | src/features/tiktok/profile/schema.ts:5-11 | only one '@' is stripped, so "@@x" fails the character set |
| TikTokProfileSchema.ProfileQuerySchema | src/features/tiktok/profile/schema.ts:14-16 | accepts exactly an object whose `username` passes; a failure is reported under a path |
| TikTokProfileSchema.ProfileQueryIgnoresUnknownKeys | src/features/tiktok/profile/schema.ts:14-16 | other keys make no difference |
| TranscribeSchema.AudioUrlSchema | src/features/transcribe/schema.ts:5-9 | accepts exactly a trimmed string that parses with an http or https protocol, returned trimmed; otherwise an invalid URL |
| TranscribeSchema.TranscribeAudioRequestSchema | src/features/transcribe/schema.ts:11-13 | accepts exactly an object whose `audioUrl` passes, returned trimmed; a bad string is reported under `audioUrl` |
| TranscribeSchema.UnknownKeysStripped | src/features/transcribe/schema.ts:13 | other keys make no difference |
| TranscribeSchema.NotAUrlRejected | src/features/transcribe/schema.ts:5-9 | "not-a-url" fails under `audioUrl` with "Invalid URL" |
| TranscribeSchema.AnyHttpsHostAccepted | src/features/transcribe/schema.ts:5-9 | any https link is accepted, whatever its host, and comes back trimmed |

## Left out

- HTTP routing, the Hono app, the feature services and the TikHub and Workers AI clients: they only forward values and are not part of this model. The Growi clients are modelled from the HTTP outcome on, with the request they would send written out.
- `fetch`, `Response.text` and `Response.json`: an outcome is given as a status, a body text and the result of reading the body as JSON.
- The database driver, drizzle and posts CRUD: the two Growi tables are maps in memory. A statement fails as a whole, as Postgres does, on a repeated key or a unique-index collision. The cascade delete of metrics is not modelled, because no operation here deletes posts.
- The column defaults are not modelled, because every row is written with all of its columns.
- GrowiRepository.MetricStored, GrowiDb.BindMetric: the engagement rate is stored as the text sent. Postgres keeps it rounded to six decimals, half away from zero, and the model does not compute that rounding. A rate too wide for `numeric(10,6)` is modelled: it fails the transaction.
- Time and randomness: sleeping is a recorded delay, the clock reading is a parameter, and `crypto.randomUUID` is the `fallbackId` parameter of the older TikHub extractor.
- The retry inside `Result.tryPromise` of the public sync belongs to an unseen library, so its attempt count and its delays are a `RetryPolicy` parameter. No exact number of attempts is claimed for the public sync.
- Floating point: numbers are exact reals. `Math.round`, `value * 1000` and `Number(string)` have no rounding error in the model, and overflow to Infinity is not modelled.
- `Number#toString` of a number that is not an integer below 10^21 is a parameter (`render`). Integers are printed exactly.
- `Date` string parsing (`new Date(string)` and date-fns `parseISO`) is a parameter. `Date#toISOString` is written out for the whole `Date` range.
- WHATWG URL parsing is a parameter that gives the protocol and the hostname. The host and protocol checks the sources make on those two parts are modelled; what the parser itself accepts is not.
- Zod.ZUrl: follows zod 4.1 and later, which trim the input before parsing and pass the trimmed string on. zod 4.0 returned the parser's normalised `href` instead, and the `normalize` option is not modelled. The sources do not pin a zod version, so the outputs of TikTokSchema.ShareUrl, TikTokVideoSchema.ShareUrlSchema and TranscribeSchema.AudioUrlSchema are the trimmed input, not a normalised URL.
- The Unicode classes `\p{L}` and `\p{N}` and `String#toLowerCase` are parameters of the TikHub host record. `tiktok.com` host matching uses ASCII lower-casing, since URL hostnames are ASCII.
- `normalizeStringValue` and `normalizeOptionalBoolean` are imported from a module that is not part of this model, so they are parameters.
- zod returns every issue, while the model reports the first issue in field order. The outcome is the same whenever only success and failure matter, and the Growi clients print only the first issue.
- The `tikhubVideoInfoSchema` check at src/integrations/tikhub/video/schema.ts:219-227 and the profile check at src/integrations/tikhub/profile/schema.ts:137-145 are not modelled as separate steps. The record datatypes already have their result schemas' types, so that mismatch cannot occur. For Workers AI the same fact is proved (`WorkersAiSchema.TransformIsNormalized`).
- The result and response-envelope schemas (`tiktokInfoResultSchema`, `tiktokProfileResultSchema`, the API envelope): they are the types of the record datatypes.
- The older profile and legacy `unixToIso` helpers are the same code as `unixTimestampToIso`, so they are modelled by `SharedDate.UnixTimestampToIso`.
- The legacy records reuse the newer record types; their `uri` and music fields, which the older schema never reads, are always absent.
- TikHubVideo.SampleVideoInfo and the other sample lemmas assume that ASCII letters count as letters and that lower-casing leaves lower-case words unchanged. They do not fix the whole Unicode tables.

## Findings

| source | as written | input that shows it | evidently intended | confidence | as-written member | corrected member |
|---|---|---|---|---|---|---|
| src/growi/sync.ts:73-96 | `config` holds the `Result` of `getGrowiApiConfig`, so the URL is built from an undefined base and `fetchGrowiUserContentsPage` returns an error `Result` without ever throwing; `fetchPageWithRetry` then hands that `Result` back as the page and `response.data.length` throws | any call with a valid bearer token and `maxPages` absent: no request is sent and the run fails with a `DbQueryError` wrapping a `TypeError` | unwrap the configuration and throw the fetch error, so that retryable errors are retried and pages are fetched | not executed | GrowiSync.SyncAsWritten, GrowiSyncProperties.AsWrittenNeverFetches | GrowiSync.Sync, GrowiSyncProperties.SyncReport, GrowiSyncProperties.FirstTurnRequests |
| src/growi/sync.ts:14-28 | a 2xx body of the wrong shape is thrown as a 502 (src/growi/private-client.ts:143-154), and `shouldRetryGrowiError` retries every status of 500 or more; a failed `fetch` (status 0) and a 429 are final | a 200 whose `data` is not an array, on every call: page 1 is asked for four times, sleeping one, two and three seconds, and the shape error ends the run | a shape error is final and asked for once; a failed request and a 429 are retried | not executed | GrowiSyncProperties.ShapeErrorRetried, GrowiRetry.PrivateRetryDiffers | GrowiRetry.RetryIntended, GrowiRetry.BadPageRequestedOnce, GrowiRetry.IntendedPolicy |
| src/growi/public-sync.ts:15-25 | a 2xx body of the wrong shape, or one with `success: false`, is thrown as a 502 (src/growi/public-client.ts:133-152), which the retry predicate takes for a server error | a 200 body with `success: false`, on every call: `times + 1` requests (four under a linear policy of three retries) before the 502 ends the run | a shape error is final and asked for once | not executed | GrowiPublicSyncProperties.ShapeErrorRetried | GrowiRetry.RetryIntended, GrowiRetry.BadResponseRequestedOnce |
| src/integrations/tikhub/schema.ts:5-28 | a value that does not pre-process to a number becomes `undefined`, which `z.coerce.number()` turns into NaN and refuses | a detail whose `statistics.play_count` is `null`: the whole payload is a schema mismatch | such a count is absent, as in the newer `optionalNumericFieldSchema` | not executed | TikHubLegacy.NumberFieldAsWritten, TikHubLegacy.NullCountFailsPayload | TikHubLegacy.NumberField, TikHubLegacy.NumberFieldCorrection |
| src/integrations/tikhub/schema.ts:30-42 | a blank string, `null` or another non-text value pre-processes to `undefined`, which `z.coerce.string()` turns into the text "undefined", which passes `.trim().min(1)` | a detail whose `desc` is `null` or "   ": the description reads "undefined" | such a field is absent | not executed | TikHubLegacy.StringFieldAsWritten, TikHubLegacy.NullDescriptionReadsUndefined, TikHubLegacy.BlankStringReadsUndefined | TikHubLegacy.StringField, TikHubLegacy.StringFieldCorrection |

The two syncs themselves keep the retry predicates of their code, so their runs are the runs the code makes; `GrowiRetry.AgreesWithPrivateRetry` and `GrowiRetry.AgreesWithPublicRetry` show that the design's rule changes a run only where a call fails in one of the ways in the first two rows. A 2xx body that is not JSON counts as a shape failure under the design's rule, though both clients report it with status 0.
