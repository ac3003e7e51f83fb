/** The two Growi tables and what Postgres does with the repository's upsert
    statements: `src_growi_posts` keyed by `growi_post_id` with a unique `share_url`
    and a unique `(platform, external_id)` index, and `src_growi_post_metrics`, one
    snapshot per post, referencing the post. Both tables are maps keyed by the post id;
    the metrics table's own `bigserial` id is not modelled. */
module GrowiDb {
  import opened Wrappers
  import opened JsValue
  import opened JsDate

  const MinBigint: int := -9223372036854775808
  const MaxBigint: int := 9223372036854775807

  /** The name drizzle gives the unique constraint of `share_url`. */
  const ShareUrlConstraint: string := "src_growi_posts_share_url_unique"
  const PlatformExternalConstraint: string := "src_growi_posts_platform_external_id_uk"

  /** A stored `src_growi_posts` row, less its key. */
  datatype PostRecord = PostRecord(
    shareUrl: string,
    platform: string,
    contentType: Option<string>,
    externalId: Option<string>,
    title: Option<string>,
    connectedAccountId: Option<string>,
    connectedAccountUsername: Option<string>,
    profileShareUrl: Option<string>,
    campaignId: Option<int>,
    campaignName: Option<string>,
    createTime: Option<TimeValue>,
    updatedAt: Option<TimeValue>,
    rawJson: Value,
    firstSeenAt: TimeValue,
    lastSeenAt: TimeValue)

  /** A stored `src_growi_post_metrics` row, less its keys. */
  datatype MetricRecord = MetricRecord(
    viewCount: int,
    likeCount: int,
    commentCount: int,
    shareCount: int,
    savesCount: Option<int>,
    engagementRate: Option<string>,
    pulledAt: TimeValue)

  datatype Tables = Tables(posts: map<int, PostRecord>, metrics: map<int, MetricRecord>)

  /** The values the repository hands to `insert(...).values(...)`, still JavaScript
      numbers and `Date`s. */
  datatype NewPost = NewPost(
    growiPostId: real,
    shareUrl: string,
    platform: string,
    contentType: Option<string>,
    externalId: Option<string>,
    title: Option<string>,
    connectedAccountId: Option<string>,
    connectedAccountUsername: Option<string>,
    profileShareUrl: Option<string>,
    campaignId: Option<real>,
    campaignName: Option<string>,
    createTime: Option<Date>,
    updatedAt: Option<TimeValue>,
    rawJson: Value,
    firstSeenAt: TimeValue,
    lastSeenAt: TimeValue)

  datatype NewMetric = NewMetric(
    growiPostId: real,
    viewCount: real,
    likeCount: real,
    commentCount: real,
    shareCount: real,
    savesCount: Option<real>,
    engagementRate: Option<string>,
    engagementValue: Option<real>,
    pulledAt: TimeValue)

  /** Why a statement fails: an Invalid Date cannot be serialised, a number is not a
      valid `bigint`, a key is hit twice by one `ON CONFLICT DO UPDATE`, a unique index
      or the foreign key is violated, or an engagement rate does not fit its column. */
  datatype DbFailure =
    | InvalidTimeValue
    | InvalidBigint(value: real)
    | NumericOverflow(value: real)
    | CardinalityViolation(key: int)
    | UniqueViolation(constraint: string)
    | ForeignKeyViolation(key: int)

  /** The table constraints of the schema. */
  predicate ShareUrlsUnique(posts: map<int, PostRecord>) {
    forall j, k | j in posts && k in posts && j != k :: posts[j].shareUrl != posts[k].shareUrl
  }

  /** Postgres unique indexes treat NULLs as distinct, so only present ids collide. */
  predicate ExternalIdsUnique(posts: map<int, PostRecord>) {
    forall j, k | j in posts && k in posts && j != k && posts[j].externalId.Some? ::
      !(posts[j].platform == posts[k].platform && posts[j].externalId == posts[k].externalId)
  }

  predicate KeysAreBigints(t: Tables) {
    (forall k | k in t.posts :: MinBigint <= k <= MaxBigint)
    && (forall k | k in t.metrics :: MinBigint <= k <= MaxBigint)
  }

  predicate Consistent(t: Tables) {
    ShareUrlsUnique(t.posts) && ExternalIdsUnique(t.posts) && t.metrics.Keys <= t.posts.Keys && KeysAreBigints(t)
  }

  /** A JavaScript number as a `bigint` parameter: integers in the 64-bit range only. */
  function Bigint(x: real): (r: Result<int, DbFailure>)
    ensures r.Ok? <==> x == x.Floor as real && MinBigint <= x.Floor <= MaxBigint
    ensures r.Ok? ==> r.value as real == x && MinBigint <= r.value <= MaxBigint
  {
    if x == x.Floor as real && MinBigint <= x.Floor <= MaxBigint then Ok(x.Floor) else Err(InvalidBigint(x))
  }

  function OptionalBigint(x: Option<real>): (r: Result<Option<int>, DbFailure>)
    ensures r.Ok? <==> x.None? || Bigint(x.value).Ok?
    ensures r.Ok? ==> (r.value.Some? <==> x.Some?) && (x.Some? ==> r.value.value as real == x.value)
  {
    if x.None? then Ok(None) else var v :- Bigint(x.value); Ok(Some(v))
  }

  /** One row after binding: its key and its record. */
  datatype PostWrite = PostWrite(key: int, record: PostRecord)
  datatype MetricWrite = MetricWrite(key: int, record: MetricRecord)

  function BindPost(p: NewPost): (r: Result<PostWrite, DbFailure>)
    ensures r.Ok? ==> r.value.key as real == p.growiPostId && MinBigint <= r.value.key <= MaxBigint
  {
    if p.createTime == Some(Invalid) then Err(InvalidTimeValue)
    else
      var key :- Bigint(p.growiPostId);
      var campaignId :- OptionalBigint(p.campaignId);
      var createTime := if p.createTime.Some? then Some(p.createTime.value.time) else None;
      Ok(PostWrite(key, PostRecord(p.shareUrl, p.platform, p.contentType, p.externalId, p.title,
        p.connectedAccountId, p.connectedAccountUsername, p.profileShareUrl, campaignId,
        p.campaignName, createTime, p.updatedAt, p.rawJson, p.firstSeenAt, p.lastSeenAt)))
  }

  function BindPosts(batch: seq<NewPost>): (r: Result<seq<PostWrite>, DbFailure>)
    ensures r.Ok? ==> |r.value| == |batch|
    ensures r.Ok? ==> forall i :: 0 <= i < |batch| ==> BindPost(batch[i]) == Ok(r.value[i])
  {
    if batch == [] then Ok([])
    else
      var head :- BindPost(batch[0]);
      var tail :- BindPosts(batch[1..]);
      Ok([head] + tail)
  }

  /** Parameters are serialised before the statement runs: an Invalid Date among them
      fails first, then the first bad `bigint`. */
  function ConvertPosts(batch: seq<NewPost>): (r: Result<seq<PostWrite>, DbFailure>)
    ensures (exists i | 0 <= i < |batch| :: batch[i].createTime == Some(Invalid)) ==> r == Err(InvalidTimeValue)
    ensures r.Ok? ==> |r.value| == |batch| && forall i :: 0 <= i < |batch| ==> BindPost(batch[i]) == Ok(r.value[i])
  {
    if exists i | 0 <= i < |batch| :: batch[i].createTime == Some(Invalid) then Err(InvalidTimeValue)
    else BindPosts(batch)
  }

  /** `engagement_rate numeric(10, 6)`: Postgres rounds the value to six decimals, half
      away from zero, and raises "numeric field overflow" when the rounded magnitude is
      not below 10^4. */
  predicate RateFits(x: real) {
    var magnitude := if x < 0.0 then -x else x;
    (magnitude * 1000000.0 + 0.5).Floor < 10000000000
  }

  /** The column takes exactly the values strictly between -9999.9999995 and 9999.9999995. */
  lemma {:induction false} RateFitsExactly(x: real)
    ensures RateFits(x) <==> -9999.9999995 < x < 9999.9999995
  {
    var magnitude := if x < 0.0 then -x else x;
    var y := magnitude * 1000000.0 + 0.5;
    assert y.Floor as real <= y < y.Floor as real + 1.0;
    assert RateFits(x) <==> y < 10000000000.0;
  }

  function BindMetric(m: NewMetric): (r: Result<MetricWrite, DbFailure>)
    ensures r.Ok? ==> r.value.key as real == m.growiPostId && MinBigint <= r.value.key <= MaxBigint
    ensures r.Ok? ==> r.value.record.engagementRate == m.engagementRate && r.value.record.pulledAt == m.pulledAt
    ensures m.engagementValue.Some? && !RateFits(m.engagementValue.value) ==> r.Err?
  {
    var key :- Bigint(m.growiPostId);
    var views :- Bigint(m.viewCount);
    var likes :- Bigint(m.likeCount);
    var comments :- Bigint(m.commentCount);
    var shares :- Bigint(m.shareCount);
    var saves :- OptionalBigint(m.savesCount);
    if m.engagementValue.Some? && !RateFits(m.engagementValue.value) then Err(NumericOverflow(m.engagementValue.value))
    else Ok(MetricWrite(key, MetricRecord(views, likes, comments, shares, saves, m.engagementRate, m.pulledAt)))
  }

  function BindMetrics(batch: seq<NewMetric>): (r: Result<seq<MetricWrite>, DbFailure>)
    ensures r.Ok? ==> |r.value| == |batch|
    ensures r.Ok? ==> forall i :: 0 <= i < |batch| ==> BindMetric(batch[i]) == Ok(r.value[i])
  {
    if batch == [] then Ok([])
    else
      var head :- BindMetric(batch[0]);
      var tail :- BindMetrics(batch[1..]);
      Ok([head] + tail)
  }

  function Keys(ws: seq<PostWrite>): set<int> {
    set i | 0 <= i < |ws| :: ws[i].key
  }

  function MetricKeys(ws: seq<MetricWrite>): set<int> {
    set i | 0 <= i < |ws| :: ws[i].key
  }

  /** What `ON CONFLICT (growi_post_id) DO UPDATE SET <every column but first_seen_at>`
      leaves in the row for `w.key`, given the table before the statement. */
  function Merged(posts: map<int, PostRecord>, w: PostWrite): (r: PostRecord)
    ensures w.key !in posts ==> r == w.record
    ensures w.key in posts ==> r == w.record.(firstSeenAt := posts[w.key].firstSeenAt)
  {
    if w.key in posts then w.record.(firstSeenAt := posts[w.key].firstSeenAt) else w.record
  }

  predicate ShareUrlTaken(posts: map<int, PostRecord>, key: int, url: string) {
    exists j | j in posts :: j != key && posts[j].shareUrl == url
  }

  predicate ExternalIdTaken(posts: map<int, PostRecord>, key: int, platform: string, externalId: Option<string>) {
    externalId.Some? && exists j | j in posts :: j != key && posts[j].platform == platform && posts[j].externalId == externalId
  }

  /** One row of the posts statement: a key already affected by the statement is a
      cardinality violation; otherwise the row is inserted or merged, and the result
      must not collide with another row on a unique index. */
  function PostStep(posts: map<int, PostRecord>, touched: set<int>, w: PostWrite): (r: Result<map<int, PostRecord>, DbFailure>)
    ensures r.Ok? ==> r.value == posts[w.key := Merged(posts, w)]
    ensures r.Ok? <==> w.key !in touched && !ShareUrlTaken(posts, w.key, w.record.shareUrl)
                       && !ExternalIdTaken(posts, w.key, w.record.platform, w.record.externalId)
  {
    var row := Merged(posts, w);
    if w.key in touched then Err(CardinalityViolation(w.key))
    else if ShareUrlTaken(posts, w.key, row.shareUrl) then Err(UniqueViolation(ShareUrlConstraint))
    else if ExternalIdTaken(posts, w.key, row.platform, row.externalId) then Err(UniqueViolation(PlatformExternalConstraint))
    else Ok(posts[w.key := row])
  }

  /** The posts statement, row by row in batch order. */
  function ExecutePosts(posts: map<int, PostRecord>, touched: set<int>, ws: seq<PostWrite>): Result<map<int, PostRecord>, DbFailure>
    decreases |ws|
  {
    if ws == [] then Ok(posts)
    else
      var next :- PostStep(posts, touched, ws[0]);
      ExecutePosts(next, touched + {ws[0].key}, ws[1..])
  }

  /** One row of the metrics statement: the post must exist and the key must not have
      been affected already; the snapshot is replaced entirely. */
  function MetricStep(posts: map<int, PostRecord>, metrics: map<int, MetricRecord>, touched: set<int>, w: MetricWrite)
    : (r: Result<map<int, MetricRecord>, DbFailure>)
    ensures r.Ok? <==> w.key !in touched && w.key in posts
    ensures r.Ok? ==> r.value == metrics[w.key := w.record]
  {
    if w.key in touched then Err(CardinalityViolation(w.key))
    else if w.key !in posts then Err(ForeignKeyViolation(w.key))
    else Ok(metrics[w.key := w.record])
  }

  function ExecuteMetrics(posts: map<int, PostRecord>, metrics: map<int, MetricRecord>, touched: set<int>, ws: seq<MetricWrite>)
    : Result<map<int, MetricRecord>, DbFailure>
    decreases |ws|
  {
    if ws == [] then Ok(metrics)
    else
      var next :- MetricStep(posts, metrics, touched, ws[0]);
      ExecuteMetrics(posts, next, touched + {ws[0].key}, ws[1..])
  }

  /** The repository's transaction: the posts statement, then the metrics statement;
      either failing leaves both tables as they were. */
  function Transaction(t: Tables, posts: seq<NewPost>, metrics: seq<NewMetric>): Result<Tables, DbFailure>
  {
    var pw :- ConvertPosts(posts);
    var newPosts :- ExecutePosts(t.posts, {}, pw);
    var mw :- BindMetrics(metrics);
    var newMetrics :- ExecuteMetrics(newPosts, t.metrics, {}, mw);
    Ok(Tables(newPosts, newMetrics))
  }

  /** Merge semantics of the posts statement: rows of the batch have distinct keys,
      each ends up merged against the table as it was before the statement, and every
      other row is untouched. */
  lemma {:induction false} ExecutePostsMerges(posts: map<int, PostRecord>, touched: set<int>, ws: seq<PostWrite>)
    requires ExecutePosts(posts, touched, ws).Ok?
    ensures Keys(ws) !! touched
    ensures forall i, j :: 0 <= i < j < |ws| ==> ws[i].key != ws[j].key
    ensures ExecutePosts(posts, touched, ws).value.Keys == posts.Keys + Keys(ws)
    ensures forall k | k in posts && k !in Keys(ws) :: ExecutePosts(posts, touched, ws).value[k] == posts[k]
    ensures forall i :: 0 <= i < |ws| ==> ExecutePosts(posts, touched, ws).value[ws[i].key] == Merged(posts, ws[i])
    decreases |ws|
  {
    if ws != [] {
      var next := posts[ws[0].key := Merged(posts, ws[0])];
      var rest := ws[1..];
      ExecutePostsMerges(next, touched + {ws[0].key}, rest);
      var result := ExecutePosts(posts, touched, ws).value;
      assert Keys(ws) == {ws[0].key} + Keys(rest) by {
        forall k | k in Keys(ws) ensures k in {ws[0].key} + Keys(rest) {
          var i :| 0 <= i < |ws| && ws[i].key == k;
          if i > 0 { assert rest[i - 1].key == k; }
        }
        forall k | k in Keys(rest) ensures k in Keys(ws) {
          var i :| 0 <= i < |rest| && rest[i].key == k;
          assert ws[i + 1].key == k;
        }
      }
      forall i, j | 0 <= i < j < |ws| ensures ws[i].key != ws[j].key {
        if i > 0 {
          assert rest[i - 1] == ws[i] && rest[j - 1] == ws[j];
        } else {
          assert rest[j - 1] == ws[j];
          assert ws[j].key in Keys(rest);
        }
      }
      forall i | 0 <= i < |ws| ensures result[ws[i].key] == Merged(posts, ws[i]) {
        if i > 0 {
          assert rest[i - 1] == ws[i];
          assert ws[i].key in Keys(rest);
          assert Merged(next, ws[i]) == Merged(posts, ws[i]);
        }
      }
    }
  }

  /** The same for the metrics statement: one full snapshot per key of the batch. */
  lemma {:induction false} ExecuteMetricsReplaces(posts: map<int, PostRecord>, metrics: map<int, MetricRecord>, touched: set<int>, ws: seq<MetricWrite>)
    requires ExecuteMetrics(posts, metrics, touched, ws).Ok?
    ensures MetricKeys(ws) !! touched && MetricKeys(ws) <= posts.Keys
    ensures ExecuteMetrics(posts, metrics, touched, ws).value.Keys == metrics.Keys + MetricKeys(ws)
    ensures forall k | k in metrics && k !in MetricKeys(ws) :: ExecuteMetrics(posts, metrics, touched, ws).value[k] == metrics[k]
    ensures forall i :: 0 <= i < |ws| ==> ExecuteMetrics(posts, metrics, touched, ws).value[ws[i].key] == ws[i].record
    decreases |ws|
  {
    if ws != [] {
      var next := metrics[ws[0].key := ws[0].record];
      var rest := ws[1..];
      ExecuteMetricsReplaces(posts, next, touched + {ws[0].key}, rest);
      var result := ExecuteMetrics(posts, metrics, touched, ws).value;
      assert MetricKeys(ws) == {ws[0].key} + MetricKeys(rest) by {
        forall k | k in MetricKeys(ws) ensures k in {ws[0].key} + MetricKeys(rest) {
          var i :| 0 <= i < |ws| && ws[i].key == k;
          if i > 0 { assert rest[i - 1].key == k; }
        }
        forall k | k in MetricKeys(rest) ensures k in MetricKeys(ws) {
          var i :| 0 <= i < |rest| && rest[i].key == k;
          assert ws[i + 1].key == k;
        }
      }
      forall i | 0 <= i < |ws| ensures result[ws[i].key] == ws[i].record {
        if i > 0 {
          assert rest[i - 1] == ws[i];
        }
      }
    }
  }

  /** A posts step keeps the unique indexes intact. */
  lemma {:induction false} PostStepKeepsUnique(posts: map<int, PostRecord>, touched: set<int>, w: PostWrite)
    requires ShareUrlsUnique(posts) && ExternalIdsUnique(posts)
    requires PostStep(posts, touched, w).Ok?
    ensures ShareUrlsUnique(PostStep(posts, touched, w).value)
    ensures ExternalIdsUnique(PostStep(posts, touched, w).value)
  {
    var next := PostStep(posts, touched, w).value;
    forall j, k | j in next && k in next && j != k ensures next[j].shareUrl != next[k].shareUrl {
      if j == w.key {
        assert !(k in posts && k != w.key && posts[k].shareUrl == Merged(posts, w).shareUrl);
      } else if k == w.key {
        assert !(j in posts && j != w.key && posts[j].shareUrl == Merged(posts, w).shareUrl);
      }
    }
    forall j, k | j in next && k in next && j != k && next[j].externalId.Some?
      ensures !(next[j].platform == next[k].platform && next[j].externalId == next[k].externalId)
    {
      var row := Merged(posts, w);
      if j == w.key {
        assert !(k in posts && k != w.key && posts[k].platform == row.platform && posts[k].externalId == row.externalId);
      } else if k == w.key {
        assert !(j in posts && j != w.key && posts[j].platform == row.platform && posts[j].externalId == row.externalId);
      }
    }
  }

  lemma {:induction false} ExecutePostsKeepsUnique(posts: map<int, PostRecord>, touched: set<int>, ws: seq<PostWrite>)
    requires ShareUrlsUnique(posts) && ExternalIdsUnique(posts)
    requires ExecutePosts(posts, touched, ws).Ok?
    ensures ShareUrlsUnique(ExecutePosts(posts, touched, ws).value)
    ensures ExternalIdsUnique(ExecutePosts(posts, touched, ws).value)
    decreases |ws|
  {
    if ws != [] {
      PostStepKeepsUnique(posts, touched, ws[0]);
      ExecutePostsKeepsUnique(PostStep(posts, touched, ws[0]).value, touched + {ws[0].key}, ws[1..]);
    }
  }

  /** A committed transaction keeps every constraint of the schema. */
  lemma {:induction false} TransactionKeepsValid(t: Tables, posts: seq<NewPost>, metrics: seq<NewMetric>)
    requires Consistent(t)
    requires Transaction(t, posts, metrics).Ok?
    ensures Consistent(Transaction(t, posts, metrics).value)
  {
    var pw := ConvertPosts(posts).value;
    var newPosts := ExecutePosts(t.posts, {}, pw).value;
    var mw := BindMetrics(metrics).value;
    ExecutePostsKeepsUnique(t.posts, {}, pw);
    ExecutePostsMerges(t.posts, {}, pw);
    ExecuteMetricsReplaces(newPosts, t.metrics, {}, mw);
    var result := Transaction(t, posts, metrics).value;
    forall k | k in result.posts ensures MinBigint <= k <= MaxBigint {
      if k !in t.posts {
        var i :| 0 <= i < |pw| && pw[i].key == k;
        assert BindPost(posts[i]) == Ok(pw[i]);
      }
    }
    forall k | k in result.metrics ensures MinBigint <= k <= MaxBigint {
      if k !in t.metrics {
        var i :| 0 <= i < |mw| && mw[i].key == k;
        assert BindMetric(metrics[i]) == Ok(mw[i]);
      }
    }
  }

  /** The in-memory database: both tables, replaced only by a committed transaction. */
  class GrowiStore {
    var posts: map<int, PostRecord>
    var metrics: map<int, MetricRecord>

    function Snapshot(): Tables
      reads this
    {
      Tables(posts, metrics)
    }

    predicate Valid()
      reads this
    {
      Consistent(Snapshot())
    }

    constructor ()
      ensures Snapshot() == Tables(map[], map[])
      ensures Valid()
    {
      posts := map[];
      metrics := map[];
    }

    /** Runs both statements; the tables change only if both succeed. */
    method RunTransaction(newPosts: seq<NewPost>, newMetrics: seq<NewMetric>) returns (r: Result<(), DbFailure>)
      modifies this
      ensures r.Ok? <==> Transaction(old(Snapshot()), newPosts, newMetrics).Ok?
      ensures r.Ok? ==> Snapshot() == Transaction(old(Snapshot()), newPosts, newMetrics).value
      ensures r.Err? ==> r.error == Transaction(old(Snapshot()), newPosts, newMetrics).error && Snapshot() == old(Snapshot())
      ensures old(Valid()) ==> Valid()
    {
      var outcome := Transaction(Snapshot(), newPosts, newMetrics);
      if outcome.Err? {
        return Err(outcome.error);
      }
      if Valid() {
        TransactionKeepsValid(Snapshot(), newPosts, newMetrics);
      }
      posts, metrics := outcome.value.posts, outcome.value.metrics;
      return Ok(());
    }
  }
}
