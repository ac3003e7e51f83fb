/** `upsertGrowiPage`: one page of user-content rows written to the two Growi tables in
    one transaction, posts merged on their Growi id and metrics replaced by the latest
    snapshot. The repository converts timestamps with its own local helpers, not with
    the throwing ones of the date library. */
module GrowiRepository {
  import opened Wrappers
  import opened JsText
  import opened JsNumber
  import opened JsValue
  import opened JsThrown
  import opened JsDate
  import opened Zod
  import opened GrowiDb
  import opened GrowiPrivateClient
  import opened LegacyErrors

  const UpsertOperation: string := "upsert growi page"

  /** The host behaviour the repository relies on and the model does not implement:
      `Number#toString` for numbers that are not integers below 10^21, `new Date(string)`,
      and the text of the error the database driver raises for a failed statement. */
  datatype Host = Host(render: real -> string, parseDate: string -> Date, describe: DbFailure -> Cause)

  /** The local `unixSecondsToDate`: null for a missing or non-positive value, otherwise
      `new Date(value * 1000)`, which is an Invalid Date when it lies beyond the range of
      `Date`. */
  function UnixSecondsToDate(value: Option<real>): (d: Option<Date>)
    ensures d.None? <==> value.None? || value.value <= 0.0
    ensures d.Some? ==> (d.value.Valid? <==> value.value * 1000.0 <= MaxTime as real)
    ensures d.Some? && d.value.Valid? ==> d.value.time as real <= value.value * 1000.0 < d.value.time as real + 1.0
  {
    if value.None? || value.value <= 0.0 then None else Some(FromNumber(Finite(value.value * 1000.0)))
  }

  /** The local `isoToDate`: null for a missing or empty string and for a string `Date`
      cannot parse. */
  function IsoToDate(value: Option<string>, parseDate: string -> Date): (r: Option<TimeValue>)
    ensures r.Some? <==> value.Some? && value.value != [] && parseDate(value.value).Valid?
    ensures r.Some? ==> r.value == parseDate(value.value).time
  {
    if value.None? || value.value == [] then None
    else
      var parsed := parseDate(value.value);
      if parsed.Invalid? then None else Some(parsed.time)
  }

  /** `parseEngagementRate`: a number is printed as it is; a string loses its first `%`
      and its surrounding white space and is read with `parseFloat`, then printed; what
      does not read as a finite number is null. */
  function ParseEngagementRate(value: Option<StrOrNum>, render: real -> string): (r: Option<string>)
    ensures value.None? ==> r.None?
    ensures value.Some? && value.value.N? ==> r == Some(NumberToString(Finite(value.value.n), render))
    ensures value.Some? && value.value.S? ==>
              (r.Some? <==> ParseFloat(Trim(RemoveFirst(value.value.s, '%'))).Finite?)
  {
    match value
    case None => None
    case Some(N(n)) => Some(NumberToString(Finite(n), render))
    case Some(S(s)) =>
      var numeric := ParseFloat(Trim(RemoveFirst(s, '%')));
      if numeric.Finite? then Some(NumberToString(numeric, render)) else None
  }

  /** The number behind the text `parseEngagementRate` gives, which Postgres reads into
      the `numeric(10, 6)` column. */
  function EngagementRateValue(value: Option<StrOrNum>): (r: Option<real>)
    ensures forall render: real -> string :: r.Some? <==> ParseEngagementRate(value, render).Some?
    ensures forall render: real -> string :: r.Some? ==> ParseEngagementRate(value, render) == Some(NumberToString(Finite(r.value), render))
  {
    match value
    case None => None
    case Some(N(n)) => Some(n)
    case Some(S(s)) =>
      var numeric := ParseFloat(Trim(RemoveFirst(s, '%')));
      if numeric.Finite? then Some(numeric.value) else None
  }

  /** `String(row.connected_account_id)`, or null. */
  function AccountIdText(id: Option<StrOrNum>, render: real -> string): Option<string> {
    match id
    case None => None
    case Some(S(s)) => Some(s)
    case Some(N(n)) => Some(NumberToString(Finite(n), render))
  }

  function ToNewPost(row: UserContentRow, now: TimeValue, host: Host): NewPost {
    var f := row.fields;
    NewPost(f.id, f.shareUrl, f.platform, f.contentType, f.externalId, f.title,
      AccountIdText(f.connectedAccountId, host.render), f.connectedAccountUsername, f.profileShareUrl,
      f.campaignId, f.campaignName, UnixSecondsToDate(f.createTime), IsoToDate(f.updatedAt, host.parseDate),
      row.raw, now, now)
  }

  function ToNewMetric(row: UserContentRow, now: TimeValue, host: Host): NewMetric {
    var f := row.fields;
    NewMetric(f.id, f.viewCount, f.likeCount, f.commentCount, f.shareCount, f.savesCount,
      ParseEngagementRate(f.engagementRate, host.render), EngagementRateValue(f.engagementRate), now)
  }

  function NewPosts(rows: seq<UserContentRow>, now: TimeValue, host: Host): seq<NewPost> {
    seq(|rows|, i requires 0 <= i < |rows| => ToNewPost(rows[i], now, host))
  }

  function NewMetrics(rows: seq<UserContentRow>, now: TimeValue, host: Host): seq<NewMetric> {
    seq(|rows|, i requires 0 <= i < |rows| => ToNewMetric(rows[i], now, host))
  }

  /** What reaches the `catch` of the repository: drizzle's `toISOString` of an Invalid
      Date throws a `RangeError`; every other failure is the driver's error. */
  function FailureCause(f: DbFailure, host: Host): (c: Cause)
    ensures f.InvalidTimeValue? ==> c == ErrorInstance("RangeError", "Invalid time value")
    ensures !f.InvalidTimeValue? ==> c == host.describe(f)
  {
    if f.InvalidTimeValue? then ErrorInstance("RangeError", "Invalid time value") else host.describe(f)
  }

  datatype UpsertOutcome = UpsertOutcome(result: Result<nat, AppError>, tables: Tables)

  /** The whole effect of one `upsertGrowiPage` call on the tables `t`, at clock time `now`. */
  function Upsert(t: Tables, rows: seq<UserContentRow>, now: TimeValue, host: Host): (o: UpsertOutcome)
    ensures rows == [] ==> o == UpsertOutcome(Ok(0), t)
    ensures o.result.Ok? ==> o.result.value == |rows|
    ensures o.result.Err? ==> o.tables == t && o.result.error.DbQueryError? && o.result.error.operation == UpsertOperation
  {
    if rows == [] then UpsertOutcome(Ok(0), t)
    else
      match Transaction(t, NewPosts(rows, now, host), NewMetrics(rows, now, host))
      case Ok(next) => UpsertOutcome(Ok(|rows|), next)
      case Err(f) => UpsertOutcome(Err(NewDbQueryError(UpsertOperation, FailureCause(f, host))), t)
  }

  /** A page is committed exactly when the transaction is; a failure is reported with the
      cause the `catch` receives. */
  lemma {:induction false} UpsertIsTransaction(t: Tables, rows: seq<UserContentRow>, now: TimeValue, host: Host)
    requires rows != []
    ensures var tx := Transaction(t, NewPosts(rows, now, host), NewMetrics(rows, now, host));
            && (Upsert(t, rows, now, host).result.Ok? <==> tx.Ok?)
            && (tx.Ok? ==> Upsert(t, rows, now, host).tables == tx.value)
            && (tx.Err? ==> Upsert(t, rows, now, host).result == Err(NewDbQueryError(UpsertOperation, FailureCause(tx.error, host))))
  {
  }

  /** `upsertGrowiPage(db, rows)` against the store; the clock reading is `now`. */
  method UpsertGrowiPage(store: GrowiStore, rows: seq<UserContentRow>, now: TimeValue, host: Host)
    returns (r: Result<nat, AppError>)
    modifies store
    ensures r == Upsert(old(store.Snapshot()), rows, now, host).result
    ensures store.Snapshot() == Upsert(old(store.Snapshot()), rows, now, host).tables
  {
    if |rows| == 0 {
      return Ok(0);
    }
    var posts := NewPosts(rows, now, host);
    var metrics := NewMetrics(rows, now, host);
    var outcome := store.RunTransaction(posts, metrics);
    if outcome.Err? {
      return Err(NewDbQueryError(UpsertOperation, FailureCause(outcome.error, host)));
    }
    return Ok(|rows|);
  }

  /** The stored post for `row` after a committed upsert at `now`: every column comes
      from the row, `last_seen_at` is `now`, and `first_seen_at` is kept from an existing
      row or set to `now` for a new one. */
  predicate PostStored(before: PostRecord, known: bool, p: PostRecord, row: UserContentRow, now: TimeValue, host: Host) {
    var f := row.fields;
    && p.shareUrl == f.shareUrl && p.platform == f.platform && p.contentType == f.contentType
    && p.externalId == f.externalId && p.title == f.title
    && p.connectedAccountId == AccountIdText(f.connectedAccountId, host.render)
    && p.connectedAccountUsername == f.connectedAccountUsername && p.profileShareUrl == f.profileShareUrl
    && (p.campaignId.Some? <==> f.campaignId.Some?)
    && (p.campaignId.Some? ==> p.campaignId.value as real == f.campaignId.value)
    && p.campaignName == f.campaignName
    && (p.createTime.Some? <==> UnixSecondsToDate(f.createTime).Some?)
    && (p.createTime.Some? ==> Valid(p.createTime.value) == UnixSecondsToDate(f.createTime).value)
    && p.updatedAt == IsoToDate(f.updatedAt, host.parseDate)
    && p.rawJson == row.raw
    && p.lastSeenAt == now
    && p.firstSeenAt == (if known then before.firstSeenAt else now)
  }

  /** The stored metrics snapshot for `row`: every count and `pulled_at` is new. */
  predicate MetricStored(m: MetricRecord, row: UserContentRow, now: TimeValue, host: Host) {
    var f := row.fields;
    && m.viewCount as real == f.viewCount && m.likeCount as real == f.likeCount
    && m.commentCount as real == f.commentCount && m.shareCount as real == f.shareCount
    && (m.savesCount.Some? <==> f.savesCount.Some?)
    && (m.savesCount.Some? ==> m.savesCount.value as real == f.savesCount.value)
    && m.engagementRate == ParseEngagementRate(f.engagementRate, host.render)
    && m.pulledAt == now
  }

  /** What a committed upsert is made of: the bound rows of both statements and the
      tables after each. */
  predicate Committed(t: Tables, rows: seq<UserContentRow>, now: TimeValue, host: Host,
                      pw: seq<PostWrite>, mw: seq<MetricWrite>, after: Tables) {
    && rows != []
    && ConvertPosts(NewPosts(rows, now, host)) == Ok(pw)
    && BindMetrics(NewMetrics(rows, now, host)) == Ok(mw)
    && ExecutePosts(t.posts, {}, pw) == Ok(after.posts)
    && ExecuteMetrics(after.posts, t.metrics, {}, mw) == Ok(after.metrics)
    && Upsert(t, rows, now, host).tables == after
  }

  lemma {:induction false} CommittedParts(t: Tables, rows: seq<UserContentRow>, now: TimeValue, host: Host)
    returns (pw: seq<PostWrite>, mw: seq<MetricWrite>, after: Tables)
    requires rows != [] && Upsert(t, rows, now, host).result.Ok?
    ensures Committed(t, rows, now, host, pw, mw, after)
    ensures |pw| == |rows| && |mw| == |rows|
    ensures forall i :: 0 <= i < |rows| ==> pw[i].key as real == rows[i].fields.id && mw[i].key == pw[i].key
  {
    var posts := NewPosts(rows, now, host);
    var metrics := NewMetrics(rows, now, host);
    pw := ConvertPosts(posts).value;
    mw := BindMetrics(metrics).value;
    var newPosts := ExecutePosts(t.posts, {}, pw).value;
    after := Tables(newPosts, ExecuteMetrics(newPosts, t.metrics, {}, mw).value);
    forall i | 0 <= i < |rows| ensures pw[i].key as real == rows[i].fields.id && mw[i].key == pw[i].key {
      assert BindPost(posts[i]) == Ok(pw[i]);
      assert BindMetric(metrics[i]) == Ok(mw[i]);
    }
  }

  /** A page with a row whose engagement rate does not fit `numeric(10, 6)` is not
      committed: the transaction fails and both tables stay as they were. */
  lemma {:induction false} OverflowingRateFailsPage(t: Tables, rows: seq<UserContentRow>, now: TimeValue, host: Host, i: nat)
    requires i < |rows|
    requires var v := EngagementRateValue(rows[i].fields.engagementRate); v.Some? && !RateFits(v.value)
    ensures Upsert(t, rows, now, host).result.Err? && Upsert(t, rows, now, host).tables == t
  {
    var metrics := NewMetrics(rows, now, host);
    assert metrics[i] == ToNewMetric(rows[i], now, host);
    assert BindMetric(metrics[i]).Err?;
    assert BindMetrics(metrics).Err?;
    assert Transaction(t, NewPosts(rows, now, host), metrics).Err?;
  }

  /** A percentage of 10000 or more, such as `"12345%"`, is too wide for the column, so
      the page holding it fails. */
  lemma {:induction false} WidePercentFailsPage(t: Tables, rows: seq<UserContentRow>, now: TimeValue, host: Host, i: nat, n: nat)
    requires i < |rows| && n >= 10000
    requires rows[i].fields.engagementRate == Some(S(NatToString(n) + "%"))
    ensures Upsert(t, rows, now, host).result.Err? && Upsert(t, rows, now, host).tables == t
  {
    PercentOfDigits(n);
    ParseFloatOfDigits(n);
    assert EngagementRateValue(rows[i].fields.engagementRate) == Some(n as real);
    RateFitsExactly(n as real);
    OverflowingRateFailsPage(t, rows, now, host, i);
  }

  /** One row of a committed upsert is stored as `PostStored` and `MetricStored` say. */
  lemma {:induction false} UpsertStoresRow(t: Tables, rows: seq<UserContentRow>, now: TimeValue, host: Host, i: nat)
    requires i < |rows| && Upsert(t, rows, now, host).result.Ok?
    ensures rows[i].fields.id == rows[i].fields.id.Floor as real
    ensures var k := rows[i].fields.id.Floor;
            var after := Upsert(t, rows, now, host).tables;
            && k in after.posts && k in after.metrics
            && PostStored(if k in t.posts then t.posts[k] else after.posts[k], k in t.posts, after.posts[k], rows[i], now, host)
            && MetricStored(after.metrics[k], rows[i], now, host)
  {
    var pw, mw, after := CommittedParts(t, rows, now, host);
    ExecutePostsMerges(t.posts, {}, pw);
    ExecuteMetricsReplaces(after.posts, t.metrics, {}, mw);
    assert BindPost(NewPosts(rows, now, host)[i]) == Ok(pw[i]);
    assert BindMetric(NewMetrics(rows, now, host)[i]) == Ok(mw[i]);
    BoundPost(rows[i], now, host, pw[i]);
    BoundMetric(rows[i], now, host, mw[i]);
    var k := pw[i].key;
    assert after.posts[k] == Merged(t.posts, pw[i]);
    assert after.metrics[k] == mw[i].record;
  }

  /** The bound post of a row has the row's columns, with both timestamps `now`. */
  lemma {:induction false} BoundPost(row: UserContentRow, now: TimeValue, host: Host, w: PostWrite)
    requires BindPost(ToNewPost(row, now, host)) == Ok(w)
    ensures w.key as real == row.fields.id
    ensures PostStored(w.record, false, w.record, row, now, host)
    ensures forall before: PostRecord {:trigger PostStored(before, true, w.record.(firstSeenAt := before.firstSeenAt), row, now, host)} ::
              PostStored(before, true, w.record.(firstSeenAt := before.firstSeenAt), row, now, host)
  {
  }

  lemma {:induction false} BoundMetric(row: UserContentRow, now: TimeValue, host: Host, w: MetricWrite)
    requires BindMetric(ToNewMetric(row, now, host)) == Ok(w)
    ensures w.key as real == row.fields.id
    ensures MetricStored(w.record, row, now, host)
  {
  }

  /** A committed upsert: the page's ids are distinct integers, each row is stored as
      `PostStored` and `MetricStored` say, and posts and metrics of every other id are
      left as they were. */
  lemma {:induction false} UpsertStoresRows(t: Tables, rows: seq<UserContentRow>, now: TimeValue, host: Host)
    requires Upsert(t, rows, now, host).result.Ok?
    ensures forall i, j :: 0 <= i < j < |rows| ==> rows[i].fields.id != rows[j].fields.id
    ensures forall i :: 0 <= i < |rows| ==> rows[i].fields.id == rows[i].fields.id.Floor as real
    ensures forall i :: 0 <= i < |rows| ==>
              var k := rows[i].fields.id.Floor;
              var after := Upsert(t, rows, now, host).tables;
              && k in after.posts && k in after.metrics
              && PostStored(if k in t.posts then t.posts[k] else after.posts[k], k in t.posts, after.posts[k], rows[i], now, host)
              && MetricStored(after.metrics[k], rows[i], now, host)
    ensures forall k | k in t.posts && (forall i :: 0 <= i < |rows| ==> rows[i].fields.id != k as real) ::
              k in Upsert(t, rows, now, host).tables.posts && Upsert(t, rows, now, host).tables.posts[k] == t.posts[k]
    ensures forall k | k in t.metrics && (forall i :: 0 <= i < |rows| ==> rows[i].fields.id != k as real) ::
              k in Upsert(t, rows, now, host).tables.metrics && Upsert(t, rows, now, host).tables.metrics[k] == t.metrics[k]
  {
    forall i | 0 <= i < |rows|
      ensures rows[i].fields.id == rows[i].fields.id.Floor as real
      ensures var k := rows[i].fields.id.Floor;
              var after := Upsert(t, rows, now, host).tables;
              && k in after.posts && k in after.metrics
              && PostStored(if k in t.posts then t.posts[k] else after.posts[k], k in t.posts, after.posts[k], rows[i], now, host)
              && MetricStored(after.metrics[k], rows[i], now, host)
    {
      UpsertStoresRow(t, rows, now, host, i);
    }
    if rows != [] {
      var pw, mw, after := CommittedParts(t, rows, now, host);
      ExecutePostsMerges(t.posts, {}, pw);
      ExecuteMetricsReplaces(after.posts, t.metrics, {}, mw);
      forall i, j | 0 <= i < j < |rows| ensures rows[i].fields.id != rows[j].fields.id {
        assert pw[i].key != pw[j].key;
      }
      forall k | k in t.posts && (forall i :: 0 <= i < |rows| ==> rows[i].fields.id != k as real)
        ensures k in after.posts && after.posts[k] == t.posts[k]
      {
        assert k !in Keys(pw);
      }
      forall k | k in t.metrics && (forall i :: 0 <= i < |rows| ==> rows[i].fields.id != k as real)
        ensures k in after.metrics && after.metrics[k] == t.metrics[k]
      {
        assert k !in MetricKeys(mw);
      }
    }
  }

  /** Every row's Growi id is a key of both tables. */
  predicate RowsStored(t: Tables, rows: seq<UserContentRow>) {
    forall i :: 0 <= i < |rows| ==> rows[i].fields.id.Floor in t.posts && rows[i].fields.id.Floor in t.metrics
  }

  /** `u` still has every post and every metrics row of `t`. */
  predicate KeysKept(t: Tables, u: Tables) {
    t.posts.Keys <= u.posts.Keys && t.metrics.Keys <= u.metrics.Keys
  }

  /** An upsert never drops a post or a metrics row, and a committed one leaves every row
      of the page keyed in both tables. */
  lemma {:induction false} UpsertKeepsKeys(t: Tables, rows: seq<UserContentRow>, now: TimeValue, host: Host)
    ensures KeysKept(t, Upsert(t, rows, now, host).tables)
    ensures Upsert(t, rows, now, host).result.Ok? ==> RowsStored(Upsert(t, rows, now, host).tables, rows)
  {
    var after := Upsert(t, rows, now, host).tables;
    if Upsert(t, rows, now, host).result.Ok? {
      UpsertStoresRows(t, rows, now, host);
      forall k | k in t.posts ensures k in after.posts {
        if i :| 0 <= i < |rows| && rows[i].fields.id == k as real {
          assert rows[i].fields.id.Floor == k;
        }
      }
      forall k | k in t.metrics ensures k in after.metrics {
        if i :| 0 <= i < |rows| && rows[i].fields.id == k as real {
          assert rows[i].fields.id.Floor == k;
        }
      }
    }
  }

  /** A committed upsert keeps every constraint of the schema. */
  lemma {:induction false} UpsertKeepsConsistent(t: Tables, rows: seq<UserContentRow>, now: TimeValue, host: Host)
    requires Consistent(t)
    ensures Consistent(Upsert(t, rows, now, host).tables)
  {
    if rows != [] && Upsert(t, rows, now, host).result.Ok? {
      TransactionKeepsValid(t, NewPosts(rows, now, host), NewMetrics(rows, now, host));
    }
  }

  /** A page in which some positive `create_time` lies beyond the range of `Date` fails as
      a whole, with drizzle's `RangeError`, and changes nothing. */
  lemma {:induction false} UpsertRejectsOutOfRangeCreateTime(t: Tables, rows: seq<UserContentRow>, now: TimeValue, host: Host, i: nat)
    requires i < |rows| && rows[i].fields.createTime.Some?
    requires rows[i].fields.createTime.value * 1000.0 > MaxTime as real
    ensures Upsert(t, rows, now, host) ==
              UpsertOutcome(Err(NewDbQueryError(UpsertOperation, ErrorInstance("RangeError", "Invalid time value"))), t)
  {
    var posts := NewPosts(rows, now, host);
    assert posts[i].createTime == Some(Invalid);
  }

  lemma {:induction false} RemoveFirstOfLast(s: string, c: char)
    requires c !in s
    ensures RemoveFirst(s + [c], c) == s
  {
    if s != [] {
      assert (s + [c])[1..] == s[1..] + [c];
      RemoveFirstOfLast(s[1..], c);
    }
  }

  /** A percentage such as `"12%"` is stored as its number, `"12"` (below 10^21, where
      `Number#toString` switches to exponent notation). */
  lemma {:induction false} EngagementRateOfPercent(n: nat, render: real -> string)
    requires n < 1000000000000000000000
    ensures ParseEngagementRate(Some(S(NatToString(n) + "%")), render) == Some(NatToString(n))
  {
    var d := NatToString(n);
    PercentOfDigits(n);
    ParseFloatOfDigits(n);
    EngagementRateOfParsed(d + "%", n as real, render);
    IntegerRendering(n, render);
  }

  lemma {:induction false} IntegerRendering(n: nat, render: real -> string)
    requires n < 1000000000000000000000
    ensures NumberToString(Finite(n as real), render) == NatToString(n)
  {
    assert (n as real).Floor == n;
  }

  lemma {:induction false} EngagementRateOfParsed(s: string, x: real, render: real -> string)
    requires ParseFloat(Trim(RemoveFirst(s, '%'))) == Finite(x)
    ensures ParseEngagementRate(Some(S(s)), render) == Some(NumberToString(Finite(x), render))
  {
  }

  lemma {:induction false} PercentOfDigits(n: nat)
    ensures Trim(RemoveFirst(NatToString(n) + "%", '%')) == NatToString(n)
  {
    var d := NatToString(n);
    RemoveFirstOfLast(d, '%');
    assert Trimmed(d) by {
      assert IsDigit(d[0]) && IsDigit(d[|d| - 1]);
    }
    TrimOfTrimmed(d);
  }

  lemma {:induction false} ParseFloatOfDigits(n: nat)
    ensures ParseFloat(NatToString(n)) == Finite(n as real)
  {
    ParseFloatPrefix(n, []);
    assert NatToString(n) + [] == NatToString(n);
  }

  /** An integer-valued number is stored in plain decimal. */
  lemma {:induction false} EngagementRateOfInteger(n: int, render: real -> string)
    requires -1000000000000000000000 < n < 1000000000000000000000
    ensures ParseEngagementRate(Some(N(n as real)), render) == Some(IntToString(n))
  {
    assert (n as real).Floor == n;
    assert IsInteger(Finite(n as real));
    assert -1e21 < n as real < 1e21;
  }
}
