/** The private Growi client: its fixed configuration, the user-contents page schema,
    the request it builds for one page and the classification of the response. */
module GrowiPrivateClient {
  import opened Wrappers
  import opened JsText
  import opened JsNumber
  import opened JsValue
  import opened Zod
  import opened GrowiApi

  datatype GrowiApiConfig = GrowiApiConfig(
    apiBaseUrl: string,
    organizationSlug: string,
    bearerToken: string,
    domainOrigin: string,
    source: string)

  const GrowiApiBaseUrl: string := "https://api.growi.io"
  const GrowiOrganizationSlug: string := "airclub-f80c0262"
  const GrowiDomainOrigin: string := "https://www.growi.io"
  const GrowiUserContentsSource: string := "management_posts"

  /** `getGrowiApiConfig`: the constants and the bearer token; the schema only fails
      when the token is not a string. */
  function GetGrowiApiConfig(bearerToken: Value): (r: Result<GrowiApiConfig, GrowiApiError>)
    ensures r.Ok? <==> bearerToken.Str?
    ensures r.Ok? ==> r.value == GrowiApiConfig(GrowiApiBaseUrl, GrowiOrganizationSlug, bearerToken.s,
                                               GrowiDomainOrigin, GrowiUserContentsSource)
    ensures r.Err? ==> r.error == GrowiApiError(0, "Invalid Growi API config")
  {
    var token := ZString(bearerToken);
    if token.Err? then Err(GrowiApiError(0, "Invalid Growi API config"))
    else Ok(GrowiApiConfig(GrowiApiBaseUrl, GrowiOrganizationSlug, token.value, GrowiDomainOrigin, GrowiUserContentsSource))
  }

  datatype PrivateMeta = PrivateMeta(
    rowCount: real,
    pageCount: real,
    currentPage: real,
    nextPage: Option<real>,
    prevPage: Option<real>,
    totalCount: Option<real>,
    totalPages: Option<real>)

  function NullableNumber(v: Value): Parsed<Option<real>> {
    ZNullable(v, ZNumber)
  }

  function OptionalNumber(v: Value): Parsed<Option<real>> {
    ZOptional(v, ZNumber)
  }

  function NullableString(v: Value): Parsed<Option<string>> {
    ZNullable(v, ZString)
  }

  function NullableStringOrNumber(v: Value): Parsed<Option<StrOrNum>> {
    ZNullable(v, ZStringOrNumber)
  }

  /** `.nullable().optional()`: both `null` and a missing key become empty. */
  function NullishNumber(v: Value): Parsed<Option<real>> {
    ZNullish(v, ZNumber)
  }

  function NullishStringOrNumber(v: Value): Parsed<Option<StrOrNum>> {
    ZNullish(v, ZStringOrNumber)
  }

  /** The three counters are numbers, the two neighbours numbers or `null`, the two
      totals numbers when present. */
  predicate MetaFieldsOk(v: Value) {
    && ZNumber(Get(v, "row_count")).Ok? && ZNumber(Get(v, "page_count")).Ok? && ZNumber(Get(v, "current_page")).Ok?
    && NullableNumber(Get(v, "next_page")).Ok? && NullableNumber(Get(v, "prev_page")).Ok?
    && OptionalNumber(Get(v, "total_count")).Ok? && OptionalNumber(Get(v, "total_pages")).Ok?
  }

  /** `growiPrivateMetaSchema`, fields checked in declaration order: accepted exactly
      when every property passes its schema, and read property by property. */
  function ParseMeta(v: Value): (r: Parsed<PrivateMeta>)
    ensures r.Ok? <==> v.Obj? && MetaFieldsOk(v)
    ensures r.Ok? ==> r.value == PrivateMeta(
              ZNumber(Get(v, "row_count")).value, ZNumber(Get(v, "page_count")).value,
              ZNumber(Get(v, "current_page")).value,
              NullableNumber(Get(v, "next_page")).value, NullableNumber(Get(v, "prev_page")).value,
              OptionalNumber(Get(v, "total_count")).value, OptionalNumber(Get(v, "total_pages")).value)
    ensures r.Ok? ==> Get(v, "row_count") == Num(Finite(r.value.rowCount)) && Get(v, "page_count") == Num(Finite(r.value.pageCount))
  {
    var _ :- ZObject(v);
    var rowCount :- Field(v, "row_count", ZNumber);
    var pageCount :- Field(v, "page_count", ZNumber);
    var currentPage :- Field(v, "current_page", ZNumber);
    var nextPage :- Field(v, "next_page", NullableNumber);
    var prevPage :- Field(v, "prev_page", NullableNumber);
    var totalCount :- Field(v, "total_count", OptionalNumber);
    var totalPages :- Field(v, "total_pages", OptionalNumber);
    Ok(PrivateMeta(rowCount, pageCount, currentPage, nextPage, prevPage, totalCount, totalPages))
  }

  /** The declared fields of a user-content row. */
  datatype RowFields = RowFields(
    id: real,
    shareUrl: string,
    platform: string,
    contentType: Option<string>,
    externalId: Option<string>,
    title: Option<string>,
    connectedAccountId: Option<StrOrNum>,
    connectedAccountUsername: Option<string>,
    profileShareUrl: Option<string>,
    campaignId: Option<real>,
    campaignName: Option<string>,
    createTime: Option<real>,
    updatedAt: Option<string>,
    viewCount: real,
    likeCount: real,
    commentCount: real,
    shareCount: real,
    savesCount: Option<real>,
    engagementRate: Option<StrOrNum>)

  /** A parsed row: its declared fields and, because the schema passes unknown keys
      through, the whole object as it arrived. */
  datatype UserContentRow = UserContentRow(fields: RowFields, raw: Value)

  function ParseRowFields(v: Value): Parsed<RowFields> {
    var _ :- ZObject(v);
    var id :- Field(v, "id", ZNumber);
    var shareUrl :- Field(v, "share_url", ZString);
    var platform :- Field(v, "platform", ZString);
    var contentType :- Field(v, "content_type", NullableString);
    var externalId :- Field(v, "external_id", NullableString);
    var title :- Field(v, "title", NullableString);
    var connectedAccountId :- Field(v, "connected_account_id", NullableStringOrNumber);
    var connectedAccountUsername :- Field(v, "connected_account_username", NullableString);
    var profileShareUrl :- Field(v, "profile_share_url", NullableString);
    var campaignId :- Field(v, "campaign_id", NullableNumber);
    var campaignName :- Field(v, "campaign_name", NullableString);
    var createTime :- Field(v, "create_time", NullableNumber);
    var updatedAt :- Field(v, "updated_at", NullableString);
    var viewCount :- Field(v, "view_count", ZNumber);
    var likeCount :- Field(v, "like_count", ZNumber);
    var commentCount :- Field(v, "comment_count", ZNumber);
    var shareCount :- Field(v, "share_count", ZNumber);
    var savesCount :- Field(v, "saves_count", NullishNumber);
    var engagementRate :- Field(v, "engagement_rate", NullishStringOrNumber);
    Ok(RowFields(id, shareUrl, platform, contentType, externalId, title, connectedAccountId,
      connectedAccountUsername, profileShareUrl, campaignId, campaignName, createTime, updatedAt,
      viewCount, likeCount, commentCount, shareCount, savesCount, engagementRate))
  }

  /** `growiUserContentRowSchema` (with `.passthrough()`). */
  function ParseRow(v: Value): (r: Parsed<UserContentRow>)
    ensures r.Ok? <==> ParseRowFields(v).Ok?
    ensures r.Ok? ==> r.value.raw == v && v.Obj? && r.value.fields == ParseRowFields(v).value
    ensures r.Err? ==> r.error == ParseRowFields(v).error
  {
    var fields :- ParseRowFields(v);
    Ok(UserContentRow(fields, v))
  }

  function OptString(o: Option<string>): Value {
    if o.Some? then Str(o.value) else Null
  }

  function OptNumber(o: Option<real>): Value {
    if o.Some? then Num(Finite(o.value)) else Null
  }

  function OptStrOrNum(o: Option<StrOrNum>): Value {
    if o.None? then Null else match o.value case S(s) => Str(s) case N(n) => Num(Finite(n))
  }

  /** The JSON object of a row's declared fields, absent values written as `null`. */
  function RowProps(f: RowFields): map<string, Value> {
    map[
      "id" := Num(Finite(f.id)),
      "share_url" := Str(f.shareUrl),
      "platform" := Str(f.platform),
      "content_type" := OptString(f.contentType),
      "external_id" := OptString(f.externalId),
      "title" := OptString(f.title),
      "connected_account_id" := OptStrOrNum(f.connectedAccountId),
      "connected_account_username" := OptString(f.connectedAccountUsername),
      "profile_share_url" := OptString(f.profileShareUrl),
      "campaign_id" := OptNumber(f.campaignId),
      "campaign_name" := OptString(f.campaignName),
      "create_time" := OptNumber(f.createTime),
      "updated_at" := OptString(f.updatedAt),
      "view_count" := Num(Finite(f.viewCount)),
      "like_count" := Num(Finite(f.likeCount)),
      "comment_count" := Num(Finite(f.commentCount)),
      "share_count" := Num(Finite(f.shareCount)),
      "saves_count" := OptNumber(f.savesCount),
      "engagement_rate" := OptStrOrNum(f.engagementRate)
    ]
  }

  function ParseRows(v: Value): Parsed<seq<UserContentRow>> {
    ZArray(v, ParseRow)
  }

  datatype UserContentsPage = UserContentsPage(data: seq<UserContentRow>, meta: PrivateMeta)

  /** `growiUserContentsPageSchema`: accepted exactly when `data` is an array of rows
      and `meta` passes the meta schema; the rows are read element by element. */
  function ParsePage(v: Value): (r: Parsed<UserContentsPage>)
    ensures r.Ok? <==> v.Obj? && Get(v, "data").Arr?
                       && (forall i :: 0 <= i < |Get(v, "data").items| ==> ParseRow(Get(v, "data").items[i]).Ok?)
                       && ParseMeta(Get(v, "meta")).Ok?
    ensures r.Ok? ==> r.value.meta == ParseMeta(Get(v, "meta")).value
    ensures r.Ok? ==> Get(v, "data").Arr? && |r.value.data| == |Get(v, "data").items|
    ensures r.Ok? ==> forall i :: 0 <= i < |r.value.data| ==> r.value.data[i] == ParseRow(Get(v, "data").items[i]).value
    ensures r.Ok? ==> forall i :: 0 <= i < |r.value.data| ==> r.value.data[i].raw == Get(v, "data").items[i]
  {
    var _ :- ZObject(v);
    var data :- Field(v, "data", ParseRows);
    var meta :- Field(v, "meta", ParseMeta);
    Ok(UserContentsPage(data, meta))
  }

  datatype PageArgs = PageArgs(startDate: string, endDate: string, page: real, perPage: real)

  /** The request `fetchGrowiUserContentsPage` sends; `render` is `Number#toString`
      for numbers that are not integers below 10^21. */
  function UserContentsRequest(config: GrowiApiConfig, args: PageArgs, render: real -> string): (req: Request)
    ensures req.origin == config.apiBaseUrl
    ensures req.path == "/api/v1/organizations/" + config.organizationSlug + "/user_contents"
    ensures req.query == [
              ("start_date", args.startDate), ("end_date", args.endDate),
              ("page", NumberToString(Finite(args.page), render)),
              ("per_page", NumberToString(Finite(args.perPage), render)),
              ("search", ""), ("sort_by", "view_count"), ("sort_direction", "desc"),
              ("source", config.source), ("organization_id", config.organizationSlug),
              ("domain_origin", config.domainOrigin)]
    ensures Lookup(req.headers, "authorization") == Some("Bearer " + config.bearerToken)
  {
    var pairs := [
      ("start_date", args.startDate), ("end_date", args.endDate),
      ("page", NumberToString(Finite(args.page), render)),
      ("per_page", NumberToString(Finite(args.perPage), render)),
      ("search", ""), ("sort_by", "view_count"), ("sort_direction", "desc"),
      ("source", config.source), ("organization_id", config.organizationSlug),
      ("domain_origin", config.domainOrigin)];
    UserContentsNamesDistinct(pairs);
    NothingAbsentFromEmpty(pairs);
    SetAllAppends([], pairs);
    var q := SetAll([], pairs);
    var headers := [("accept", "*/*"), ("app-name", "web"), ("authorization", "Bearer " + config.bearerToken),
                    ("content-type", "application/json"), ("origin", config.domainOrigin),
                    ("referer", config.domainOrigin + "/")];
    assert Lookup(headers[2..], "authorization") == Some("Bearer " + config.bearerToken);
    assert Lookup(headers[1..], "authorization") == Lookup(headers[2..], "authorization");
    Request(config.apiBaseUrl, "/api/v1/organizations/" + config.organizationSlug + "/user_contents", q, headers)
  }

  /** The ten query names of a user-contents request are distinct. */
  lemma {:induction false} UserContentsNamesDistinct(pairs: Params)
    requires |pairs| == 10
    requires pairs[0].0 == "start_date" && pairs[1].0 == "end_date" && pairs[2].0 == "page" && pairs[3].0 == "per_page"
    requires pairs[4].0 == "search" && pairs[5].0 == "sort_by" && pairs[6].0 == "sort_direction" && pairs[7].0 == "source"
    requires pairs[8].0 == "organization_id" && pairs[9].0 == "domain_origin"
    ensures DistinctNames(pairs)
  {
    assert DistinctNames(pairs[9..]);
    AbsentOf(pairs[9..], pairs[8].0);
    assert DistinctNames(pairs[8..]);
    AbsentOf(pairs[8..], pairs[7].0);
    assert DistinctNames(pairs[7..]);
    AbsentOf(pairs[7..], pairs[6].0);
    assert DistinctNames(pairs[6..]);
    AbsentOf(pairs[6..], pairs[5].0);
    assert DistinctNames(pairs[5..]);
    AbsentOf(pairs[5..], pairs[4].0);
    assert DistinctNames(pairs[4..]);
    AbsentOf(pairs[4..], pairs[3].0);
    assert DistinctNames(pairs[3..]);
    AbsentOf(pairs[3..], pairs[2].0);
    assert DistinctNames(pairs[2..]);
    AbsentOf(pairs[2..], pairs[1].0);
    assert DistinctNames(pairs[1..]);
    AbsentOf(pairs[1..], pairs[0].0);
    assert DistinctNames(pairs[0..]);
    assert pairs[0..] == pairs;
  }

  /** The outcome of one `fetchGrowiUserContentsPage` call: a page exactly for a 2xx JSON
      body of the right shape; otherwise the HTTP status of the response, 502 for a bad
      shape, or 0 for a failed `fetch` or a body that is not JSON, so an error never
      carries a success status. */
  function ClassifyUserContents(outcome: HttpOutcome): (r: Result<UserContentsPage, GrowiApiError>)
    ensures r.Ok? <==> outcome.Response? && IsOk(outcome.status) && outcome.json.Ok? && ParsePage(outcome.json.value).Ok?
    ensures r.Ok? ==> r.value == ParsePage(outcome.json.value).value
    ensures r.Err? ==> !IsOk(r.error.status)
    ensures r.Err? ==> r.error.status == 0 || r.error.status == 502 || (outcome.Response? && r.error.status == outcome.status)
    ensures outcome.Transport? ==> r.Err? && r.error.status == 0
    ensures outcome.Response? && IsOk(outcome.status) && outcome.json.Ok? && ParsePage(outcome.json.value).Err? ==>
              r == Err(GrowiApiError(502, "Unexpected Growi response shape" + " (" + ShapeDetail(ParsePage(outcome.json.value).error) + ")"))
  {
    Classify(outcome, ParsePage, NoCheck, "Unexpected Growi response shape", "Growi request failed: ")
  }

  function NoCheck(p: UserContentsPage): Option<GrowiApiError> {
    None
  }
}
