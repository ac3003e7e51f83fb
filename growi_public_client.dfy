/** The public Growi client: its configuration, the top-posts-by-views schema with its
    lenient integers, the request for one page and the classification of the response. */
module GrowiPublicClient {
  import opened Wrappers
  import opened JsText
  import opened JsNumber
  import opened JsValue
  import opened Zod
  import opened GrowiApi
  import opened GrowiPrivateClient

  // ---- Integers that may arrive as text ----

  /** The preprocessing step of `growiIntSchema`: a string loses its commas and its
      surrounding white space and, when something is left, becomes `Number` of it;
      every other value is passed on unchanged. */
  function GrowiIntInput(v: Value): Value {
    if v.Str? && Trim(RemoveAll(v.s, ',')) != [] then Num(StringToNumber(Trim(RemoveAll(v.s, ','))))
    else v
  }

  /** `growiIntSchema`: the preprocessed value must be a non-negative safe integer. */
  function ZGrowiInt(v: Value): (r: Parsed<nat>)
    ensures r.Ok? <==> GrowiIntInput(v).Num? && IsInteger(GrowiIntInput(v).n)
                       && 0.0 <= GrowiIntInput(v).n.value <= MaxSafeInteger as real
    ensures r.Ok? ==> r.value as real == GrowiIntInput(v).n.value
  {
    var x :- ZInt(GrowiIntInput(v));
    if x < 0 then Fail(TooSmall("number", 0)) else Ok(x)
  }

  /** A non-negative safe integer is accepted as a number. */
  lemma {:induction false} GrowiIntOfNumber(n: nat)
    requires n <= MaxSafeInteger
    ensures ZGrowiInt(Num(Finite(n as real))) == Ok(n)
  {
    assert (n as real).Floor == n;
  }

  /** `growiIntSchema` sees only the preprocessed value. */
  lemma {:induction false} GrowiIntOfInput(v: Value, w: Value)
    requires GrowiIntInput(v) == GrowiIntInput(w)
    ensures ZGrowiInt(v) == ZGrowiInt(w)
  {
  }

  lemma {:induction false} GrowiIntInputOfDigits(n: nat)
    ensures GrowiIntInput(Str(NatToString(n))) == Num(Finite(n as real))
  {
    var d := NatToString(n);
    RemoveAllAbsent(d, ',');
    TrimOfNat(n);
    assert Trim(RemoveAll(d, ',')) == d;
    StringToNumberOfNat(n);
  }

  /** ... and as its decimal text: rendering and reading back agree. */
  lemma {:induction false} GrowiIntOfDigits(n: nat)
    requires n <= MaxSafeInteger
    ensures ZGrowiInt(Str(NatToString(n))) == Ok(n)
  {
    GrowiIntInputOfDigits(n);
    GrowiIntOfInput(Str(NatToString(n)), Num(Finite(n as real)));
    GrowiIntOfNumber(n);
  }

  lemma {:induction false} RemoveAllAbsent(s: string, c: char)
    requires c !in s
    ensures RemoveAll(s, c) == s
    decreases |s|
  {
    if s != [] {
      assert c !in s[1..];
      RemoveAllAbsent(s[1..], c);
      assert s == [s[0]] + s[1..];
    }
  }

  lemma {:induction false} RemoveAllIdempotent(s: string, c: char)
    ensures RemoveAll(RemoveAll(s, c), c) == RemoveAll(s, c)
  {
    RemoveAllAbsent(RemoveAll(s, c), c);
  }

  /** A text with nothing but commas and white space stays a string, which is not a number. */
  lemma {:induction false} GrowiIntOfBlank(s: string)
    requires Trim(RemoveAll(s, ',')) == []
    ensures ZGrowiInt(Str(s)) == Fail(InvalidType("number", TypeName(Str(s))))
  {
  }

  /** Thousands separators do not matter: a text is read as it is without its commas. */
  lemma {:induction false} GrowiIntIgnoresCommas(s: string)
    ensures ZGrowiInt(Str(s)) == ZGrowiInt(Str(RemoveAll(s, ',')))
  {
    var r := RemoveAll(s, ',');
    RemoveAllIdempotent(s, ',');
    if Trim(r) != [] {
      GrowiIntIgnoresCommasOfText(s, r);
    } else {
      GrowiIntIgnoresCommasOfBlank(s, r);
    }
  }

  lemma {:induction false} GrowiIntIgnoresCommasOfText(s: string, r: string)
    requires r == RemoveAll(s, ',') && RemoveAll(r, ',') == r && Trim(r) != []
    ensures ZGrowiInt(Str(s)) == ZGrowiInt(Str(r))
  {
    assert GrowiIntInput(Str(s)) == GrowiIntInput(Str(r));
    GrowiIntOfInput(Str(s), Str(r));
  }

  lemma {:induction false} GrowiIntIgnoresCommasOfBlank(s: string, r: string)
    requires r == RemoveAll(s, ',') && RemoveAll(r, ',') == r && Trim(r) == []
    ensures ZGrowiInt(Str(s)) == ZGrowiInt(Str(r))
  {
    GrowiIntOfBlank(s);
    GrowiIntOfBlank(r);
  }

  lemma {:induction false} SeparatorRemoved()
    ensures RemoveAll("1,234", ',') == "1234"
  {
    RemoveAllAbsent("234", ',');
    assert "1,234"[1..] == ",234" && ",234"[1..] == "234";
  }

  lemma {:induction false} DigitsOf1234()
    ensures NatToString(1234) == "1234"
  {
    assert NatToString(1) == "1";
    assert NatToString(12) == "12";
    assert NatToString(123) == "123";
  }

  /** `"1,234"` is 1234. */
  lemma {:induction false} GrowiIntWithSeparator()
    ensures ZGrowiInt(Str("1,234")) == Ok(1234)
  {
    SeparatorRemoved();
    DigitsOf1234();
    GrowiIntIgnoresCommas("1,234");
    GrowiIntOfDigits(1234);
  }

  /** A negative or fractional number, and a text that is empty once its commas and
      white space are gone, are refused. */
  lemma {:induction false} GrowiIntRefusals(x: real, s: string)
    requires x < 0.0 || x != x.Floor as real
    requires Trim(RemoveAll(s, ',')) == []
    ensures ZGrowiInt(Num(Finite(x))).Err?
    ensures ZGrowiInt(Str(s)).Err?
  {
  }

  // ---- The response schema ----

  datatype PublicMetrics = PublicMetrics(views: nat, likes: nat, comments: nat, shares: nat)

  datatype TopPost = TopPost(
    id: nat,
    title: Option<string>,
    shareUrl: string,
    platform: string,
    contentType: Option<string>,
    externalId: Option<string>,
    username: Option<string>,
    name: Option<string>,
    profileShareUrl: Option<string>,
    metrics: PublicMetrics,
    gmv: Option<string>)

  datatype PublicMeta = PublicMeta(currentPage: nat, perPage: Option<nat>, rowCount: nat, pageCount: nat, hasMore: Option<bool>)

  datatype TopPostsResponse = TopPostsResponse(success: bool, posts: seq<TopPost>, meta: PublicMeta)

  function NullishString(v: Value): Parsed<Option<string>> {
    ZNullish(v, ZString)
  }

  function OptionalGrowiInt(v: Value): Parsed<Option<nat>> {
    ZOptional(v, ZGrowiInt)
  }

  function OptionalBoolean(v: Value): Parsed<Option<bool>> {
    ZOptional(v, ZBoolean)
  }

  /** `growiPublicPostMetricsSchema`: four Growi integers. */
  function ParsePublicMetrics(v: Value): (r: Parsed<PublicMetrics>)
    ensures r.Ok? <==> v.Obj? && ZGrowiInt(Get(v, "views")).Ok? && ZGrowiInt(Get(v, "likes")).Ok?
                       && ZGrowiInt(Get(v, "comments")).Ok? && ZGrowiInt(Get(v, "shares")).Ok?
    ensures r.Ok? ==> r.value == PublicMetrics(ZGrowiInt(Get(v, "views")).value, ZGrowiInt(Get(v, "likes")).value,
                                               ZGrowiInt(Get(v, "comments")).value, ZGrowiInt(Get(v, "shares")).value)
  {
    var _ :- ZObject(v);
    var views :- Field(v, "views", ZGrowiInt);
    var likes :- Field(v, "likes", ZGrowiInt);
    var comments :- Field(v, "comments", ZGrowiInt);
    var shares :- Field(v, "shares", ZGrowiInt);
    Ok(PublicMetrics(views, likes, comments, shares))
  }

  /** Every property of a top post passes its schema. */
  predicate TopPostFieldsOk(v: Value) {
    && ZGrowiInt(Get(v, "id")).Ok? && NullishString(Get(v, "title")).Ok?
    && ZString(Get(v, "share_url")).Ok? && ZString(Get(v, "platform")).Ok?
    && NullishString(Get(v, "content_type")).Ok? && NullishString(Get(v, "external_id")).Ok?
    && NullishString(Get(v, "username")).Ok? && NullishString(Get(v, "name")).Ok?
    && NullishString(Get(v, "profile_share_url")).Ok? && ParsePublicMetrics(Get(v, "metrics")).Ok?
    && NullishString(Get(v, "gmv")).Ok?
  }

  /** `growiPublicTopPostSchema`: accepted exactly when every property passes its
      schema; unknown keys are dropped. */
  function ParseTopPost(v: Value): (r: Parsed<TopPost>)
    ensures r.Ok? <==> v.Obj? && TopPostFieldsOk(v)
    ensures r.Ok? ==> r.value == TopPost(
              ZGrowiInt(Get(v, "id")).value, NullishString(Get(v, "title")).value,
              Get(v, "share_url").s, Get(v, "platform").s,
              NullishString(Get(v, "content_type")).value, NullishString(Get(v, "external_id")).value,
              NullishString(Get(v, "username")).value, NullishString(Get(v, "name")).value,
              NullishString(Get(v, "profile_share_url")).value, ParsePublicMetrics(Get(v, "metrics")).value,
              NullishString(Get(v, "gmv")).value)
  {
    var _ :- ZObject(v);
    var id :- Field(v, "id", ZGrowiInt);
    var title :- Field(v, "title", NullishString);
    var shareUrl :- Field(v, "share_url", ZString);
    var platform :- Field(v, "platform", ZString);
    var contentType :- Field(v, "content_type", NullishString);
    var externalId :- Field(v, "external_id", NullishString);
    var username :- Field(v, "username", NullishString);
    var name :- Field(v, "name", NullishString);
    var profileShareUrl :- Field(v, "profile_share_url", NullishString);
    var metrics :- Field(v, "metrics", ParsePublicMetrics);
    var gmv :- Field(v, "gmv", NullishString);
    Ok(TopPost(id, title, shareUrl, platform, contentType, externalId, username, name, profileShareUrl, metrics, gmv))
  }

  function ParseTopPosts(v: Value): Parsed<seq<TopPost>> {
    ZArray(v, ParseTopPost)
  }

  /** The `data` object: only its `top_posts_by_views` array, every element of which
      must be a top post. */
  function ParseTopPostsData(v: Value): (r: Parsed<seq<TopPost>>)
    ensures var w := Get(v, "top_posts_by_views");
            r.Ok? <==> v.Obj? && w.Arr? && forall i :: 0 <= i < |w.items| ==> ParseTopPost(w.items[i]).Ok?
    ensures var w := Get(v, "top_posts_by_views");
            r.Ok? ==> w.Arr? && |r.value| == |w.items| && forall i :: 0 <= i < |w.items| ==> r.value[i] == ParseTopPost(w.items[i]).value
  {
    var _ :- ZObject(v);
    Field(v, "top_posts_by_views", ParseTopPosts)
  }

  /** The `meta` object: the page, the row and the page counters are Growi integers;
      `per_page` and `has_more` may be missing. */
  function ParsePublicMeta(v: Value): (r: Parsed<PublicMeta>)
    ensures r.Ok? <==> v.Obj? && ZGrowiInt(Get(v, "current_page")).Ok? && OptionalGrowiInt(Get(v, "per_page")).Ok?
                       && ZGrowiInt(Get(v, "row_count")).Ok? && ZGrowiInt(Get(v, "page_count")).Ok?
                       && OptionalBoolean(Get(v, "has_more")).Ok?
    ensures r.Ok? ==> r.value == PublicMeta(ZGrowiInt(Get(v, "current_page")).value, OptionalGrowiInt(Get(v, "per_page")).value,
                                            ZGrowiInt(Get(v, "row_count")).value, ZGrowiInt(Get(v, "page_count")).value,
                                            OptionalBoolean(Get(v, "has_more")).value)
  {
    var _ :- ZObject(v);
    var currentPage :- Field(v, "current_page", ZGrowiInt);
    var perPage :- Field(v, "per_page", OptionalGrowiInt);
    var rowCount :- Field(v, "row_count", ZGrowiInt);
    var pageCount :- Field(v, "page_count", ZGrowiInt);
    var hasMore :- Field(v, "has_more", OptionalBoolean);
    Ok(PublicMeta(currentPage, perPage, rowCount, pageCount, hasMore))
  }

  /** `growiPublicTopPostsByViewsResponseSchema`: `success`, then `data`, then `meta`;
      accepted exactly when the three pass. */
  function ParseTopPostsResponse(v: Value): (r: Parsed<TopPostsResponse>)
    ensures r.Ok? <==> v.Obj? && Get(v, "success").Bool? && ParseTopPostsData(Get(v, "data")).Ok?
                       && ParsePublicMeta(Get(v, "meta")).Ok?
    ensures r.Ok? ==> r.value == TopPostsResponse(Get(v, "success").b, ParseTopPostsData(Get(v, "data")).value,
                                                  ParsePublicMeta(Get(v, "meta")).value)
    ensures r.Ok? ==> v.Obj? && Get(v, "success") == Bool(r.value.success)
  {
    var _ :- ZObject(v);
    var success :- Field(v, "success", ZBoolean);
    var posts :- Field(v, "data", ParseTopPostsData);
    var meta :- Field(v, "meta", ParsePublicMeta);
    Ok(TopPostsResponse(success, posts, meta))
  }

  // ---- Configuration and request ----

  datatype PublicApiConfig = PublicApiConfig(apiBaseUrl: string, publicApiKey: string)

  const PublicApiBaseUrl: string := "https://api.growi.io"

  /** `getGrowiPublicApiConfig`: the key must be a string that is not blank, and is kept
      trimmed (the schema's `.trim()` transforms it). */
  function GetGrowiPublicApiConfig(publicApiKey: Value): (r: Result<PublicApiConfig, GrowiApiError>)
    ensures r.Ok? <==> publicApiKey.Str? && Trim(publicApiKey.s) != []
    ensures r.Ok? ==> r.value == PublicApiConfig(PublicApiBaseUrl, Trim(publicApiKey.s))
    ensures r.Err? ==> r.error == GrowiApiError(0, "Invalid Growi public API config")
  {
    var key := ZString(publicApiKey);
    if key.Err? || Utf16Length(Trim(key.value)) < 1 then Err(GrowiApiError(0, "Invalid Growi public API config"))
    else Ok(PublicApiConfig(PublicApiBaseUrl, Trim(key.value)))
  }

  /** The arguments of `fetchGrowiTopPostsByViewsPage`; `includeGmv` is already
      `Boolean(args.includeGmv)`. */
  datatype TopPostsArgs = TopPostsArgs(startDate: string, endDate: string, page: real, limit: real,
                                       perPage: Option<real>, includeGmv: bool)

  function BoolText(b: bool): string {
    if b then "true" else "false"
  }

  function HeadPairs(args: TopPostsArgs, render: real -> string): Params {
    [("start_date", args.startDate), ("end_date", args.endDate),
     ("page", NumberToString(Finite(args.page), render)), ("limit", NumberToString(Finite(args.limit), render))]
  }

  function PerPagePair(args: TopPostsArgs, render: real -> string): Params {
    if args.perPage.Some? then [("per_page", NumberToString(Finite(args.perPage.value), render))] else []
  }

  /** The query pairs in the order they are set; `per_page` only when it is a number. */
  function TopPostsPairs(args: TopPostsArgs, render: real -> string): Params {
    HeadPairs(args, render) + PerPagePair(args, render) + [("include_gmv", BoolText(args.includeGmv))]
  }

  /** The request `fetchGrowiTopPostsByViewsPage` sends. Every parameter is set once, in
      order; `per_page` is there exactly when it is given; `include_gmv` is always there. */
  function TopPostsRequest(config: PublicApiConfig, args: TopPostsArgs, render: real -> string): (req: Request)
    ensures req.origin == config.apiBaseUrl && req.path == "/api/public/v1/stats/top_posts_by_views"
    ensures req.query == TopPostsPairs(args, render)
    ensures Lookup(req.query, "page") == Some(NumberToString(Finite(args.page), render))
    ensures Lookup(req.query, "include_gmv") == Some(if args.includeGmv then "true" else "false")
    ensures Lookup(req.query, "per_page") == (if args.perPage.Some? then Some(NumberToString(Finite(args.perPage.value), render)) else None)
    ensures req.headers == [("authorization", "Bearer " + config.publicApiKey), ("content-type", "application/json")]
  {
    var pairs := TopPostsPairs(args, render);
    TopPostsNamesDistinct(args, render);
    NothingAbsentFromEmpty(pairs);
    SetAllAppends([], pairs);
    assert [] + pairs == pairs;
    TopPostsLookups(args, render);
    Request(config.apiBaseUrl, "/api/public/v1/stats/top_posts_by_views", SetAll([], pairs),
      [("authorization", "Bearer " + config.publicApiKey), ("content-type", "application/json")])
  }

  lemma {:induction false} TopPostsNamesDistinct(args: TopPostsArgs, render: real -> string)
    ensures DistinctNames(TopPostsPairs(args, render))
  {
    var pairs := TopPostsPairs(args, render);
    var n := |pairs|;
    assert pairs[n - 1].0 == "include_gmv";
    assert DistinctNames(pairs[n - 1..]);
    var k := n - 2;
    while k >= 0
      invariant -1 <= k <= n - 2
      invariant DistinctNames(pairs[k + 1..])
      decreases k + 1
    {
      AbsentOf(pairs[k + 1..], pairs[k].0);
      assert pairs[k..][1..] == pairs[k + 1..];
      k := k - 1;
    }
    assert pairs[0..] == pairs;
  }

  lemma {:induction false} TopPostsLookups(args: TopPostsArgs, render: real -> string)
    ensures Lookup(TopPostsPairs(args, render), "page") == Some(NumberToString(Finite(args.page), render))
    ensures Lookup(TopPostsPairs(args, render), "include_gmv") == Some(BoolText(args.includeGmv))
    ensures Lookup(TopPostsPairs(args, render), "per_page") ==
              (if args.perPage.Some? then Some(NumberToString(Finite(args.perPage.value), render)) else None)
  {
    var head, opt, last := HeadPairs(args, render), PerPagePair(args, render), [("include_gmv", BoolText(args.includeGmv))];
    PageLookup(head, opt, last, args.page, render);
    IncludeGmvLookup(head, opt, last, args.includeGmv);
    PerPageLookup(head, opt, last, args.perPage, render);
  }

  lemma {:induction false} PageLookup(head: Params, opt: Params, last: Params, page: real, render: real -> string)
    requires |head| == 4 && head[2] == ("page", NumberToString(Finite(page), render))
    requires head[0].0 == "start_date" && head[1].0 == "end_date"
    ensures Lookup(head + opt + last, "page") == Some(NumberToString(Finite(page), render))
  {
    LookupConcat(head + opt, last, "page");
    LookupConcat(head, opt, "page");
    assert Lookup(head[2..], "page") == Some(NumberToString(Finite(page), render));
    assert head[1..][1..] == head[2..];
    assert Lookup(head[1..], "page") == Lookup(head[2..], "page");
  }

  lemma {:induction false} IncludeGmvLookup(head: Params, opt: Params, last: Params, includeGmv: bool)
    requires |head| == 4 && head[0].0 == "start_date" && head[1].0 == "end_date"
    requires head[2].0 == "page" && head[3].0 == "limit"
    requires |opt| <= 1 && (opt != [] ==> opt[0].0 == "per_page")
    requires last == [("include_gmv", BoolText(includeGmv))]
    ensures Lookup(head + opt + last, "include_gmv") == Some(BoolText(includeGmv))
  {
    LookupConcat(head + opt, last, "include_gmv");
    LookupConcat(head, opt, "include_gmv");
    assert head[1..][1..][1..] == head[3..];
  }

  lemma {:induction false} PerPageLookup(head: Params, opt: Params, last: Params, perPage: Option<real>, render: real -> string)
    requires |head| == 4 && head[0].0 == "start_date" && head[1].0 == "end_date"
    requires head[2].0 == "page" && head[3].0 == "limit"
    requires opt == (if perPage.Some? then [("per_page", NumberToString(Finite(perPage.value), render))] else [])
    requires |last| == 1 && last[0].0 == "include_gmv"
    ensures Lookup(head + opt + last, "per_page") ==
              (if perPage.Some? then Some(NumberToString(Finite(perPage.value), render)) else None)
  {
    LookupConcat(head + opt, last, "per_page");
    LookupConcat(head, opt, "per_page");
    assert head[1..][1..][1..] == head[3..];
  }

  // ---- The response ----

  /** `parsed.data.success` must hold as well. */
  function SuccessCheck(r: TopPostsResponse): Option<GrowiApiError> {
    if r.success then None else Some(GrowiApiError(502, "Growi public API returned success=false"))
  }

  /** The outcome of one `fetchGrowiTopPostsByViewsPage` call: a response exactly for a
      2xx JSON body of the right shape that reports success. */
  function ClassifyTopPosts(outcome: HttpOutcome): (r: Result<TopPostsResponse, GrowiApiError>)
    ensures r.Ok? <==> outcome.Response? && IsOk(outcome.status) && outcome.json.Ok?
                       && ParseTopPostsResponse(outcome.json.value).Ok? && ParseTopPostsResponse(outcome.json.value).value.success
    ensures r.Ok? ==> r.value == ParseTopPostsResponse(outcome.json.value).value && r.value.success
    ensures r.Err? ==> !IsOk(r.error.status)
    ensures outcome.Response? && IsOk(outcome.status) && outcome.json.Ok? && ParseTopPostsResponse(outcome.json.value).Ok?
            && !ParseTopPostsResponse(outcome.json.value).value.success ==>
              r == Err(GrowiApiError(502, "Growi public API returned success=false"))
    ensures outcome.Response? && IsOk(outcome.status) && outcome.json.Ok? && ParseTopPostsResponse(outcome.json.value).Err? ==>
              r == Err(GrowiApiError(502, "Unexpected Growi public response shape" + " ("
                                          + ShapeDetail(ParseTopPostsResponse(outcome.json.value).error) + ")"))
  {
    Classify(outcome, ParseTopPostsResponse, SuccessCheck, "Unexpected Growi public response shape", "Growi public request failed: ")
  }
}
