/** The TikHub profile payload: the user record and two statistics records, `stats` and
    `statsV2`, merged into one profile by fixed fallback chains. */
module TikHubProfile {
  import opened Wrappers
  import opened JsNumber
  import opened JsValue
  import opened Zod
  import opened SharedNumber
  import opened SharedDate
  import opened AppErrors
  import TikHubVideo

  /** What the extractor borrows from the shared string helpers, which are not part of
      this model: `normalizeStringValue` and `normalizeOptionalBoolean`. */
  datatype Host = Host(normalizeString: Value -> Value, normalizeBoolean: Value -> Value)

  /** `optionalBooleanFieldSchema`: the normalised value must be absent or a boolean. */
  function OptionalBoolean(v: Value, normalize: Value -> Value): (r: Parsed<Option<bool>>)
    ensures r.Ok? <==> normalize(v) == Undefined || normalize(v).Bool?
    ensures r.Ok? ==> r.value == (if normalize(v).Bool? then Some(normalize(v).b) else None)
  {
    ZOptional(normalize(v), ZBoolean)
  }

  datatype BioLink = BioLink(link: Option<string>)

  datatype CommerceUserInfo = CommerceUserInfo(category: Option<string>)

  datatype User = User(id: Option<string>, uniqueId: Option<string>, secUid: Option<string>, nickname: Option<string>,
                       verified: Option<bool>, signature: Option<string>, createTime: Option<real>,
                       avatarThumb: Option<string>, avatarMedium: Option<string>, avatarLarger: Option<string>,
                       bioLink: Option<BioLink>, commerceUserInfo: Option<CommerceUserInfo>)

  datatype Stats = Stats(followerCount: Option<real>, followingCount: Option<real>, heart: Option<real>,
                         heartCount: Option<real>, videoCount: Option<real>, friendCount: Option<real>)

  datatype UserInfo = UserInfo(user: User, stats: Option<Stats>, statsV2: Option<Stats>)

  /** Property `key` read by the optional string field schema. */
  function StringKey(v: Value, key: string, normalize: Value -> Value): (r: Parsed<Option<string>>)
    ensures r.Ok? <==> TikHubVideo.OptionalString(Get(v, key), normalize).Ok?
    ensures r.Ok? ==> r.value == TikHubVideo.OptionalString(Get(v, key), normalize).value
  {
    Under(Key(key), TikHubVideo.OptionalString(Get(v, key), normalize))
  }

  /** Property `key` read by the optional numeric field schema, which never fails. */
  function NumberKey(v: Value, key: string): (r: Option<real>)
    ensures r == NormalizeNumberValue(Get(v, key))
  {
    TikHubVideo.OptionalNumber(Get(v, key)).value
  }

  function BioLinkSchema(v: Value, normalize: Value -> Value): (r: Parsed<BioLink>)
    ensures r.Ok? <==> v.Obj? && TikHubVideo.OptionalString(Get(v, "link"), normalize).Ok?
    ensures r.Ok? ==> r.value == BioLink(TikHubVideo.OptionalString(Get(v, "link"), normalize).value)
  {
    var _ :- ZObject(v);
    var link :- StringKey(v, "link", normalize);
    Ok(BioLink(link))
  }

  function CommerceUserInfoSchema(v: Value, normalize: Value -> Value): (r: Parsed<CommerceUserInfo>)
    ensures r.Ok? <==> v.Obj? && TikHubVideo.OptionalString(Get(v, "category"), normalize).Ok?
    ensures r.Ok? ==> r.value == CommerceUserInfo(TikHubVideo.OptionalString(Get(v, "category"), normalize).value)
  {
    var _ :- ZObject(v);
    var category :- StringKey(v, "category", normalize);
    Ok(CommerceUserInfo(category))
  }

  /** Property `verified` read by the optional boolean field schema. */
  function BooleanKey(v: Value, key: string, normalize: Value -> Value): (r: Parsed<Option<bool>>)
    ensures r.Ok? <==> OptionalBoolean(Get(v, key), normalize).Ok?
    ensures r.Ok? ==> r.value == OptionalBoolean(Get(v, key), normalize).value
  {
    Field(v, key, w => OptionalBoolean(w, normalize))
  }

  function BioLinkKey(v: Value, normalize: Value -> Value): (r: Parsed<Option<BioLink>>)
    ensures Get(v, "bioLink") == Undefined ==> r == Ok(None)
    ensures Get(v, "bioLink") != Undefined ==> (r.Ok? <==> BioLinkSchema(Get(v, "bioLink"), normalize).Ok?)
    ensures Get(v, "bioLink") != Undefined && r.Ok? ==> r.value == Some(BioLinkSchema(Get(v, "bioLink"), normalize).value)
  {
    Field(v, "bioLink", w => ZOptional(w, u => BioLinkSchema(u, normalize)))
  }

  function CommerceKey(v: Value, normalize: Value -> Value): (r: Parsed<Option<CommerceUserInfo>>)
    ensures Get(v, "commerceUserInfo") == Undefined ==> r == Ok(None)
    ensures Get(v, "commerceUserInfo") != Undefined ==> (r.Ok? <==> CommerceUserInfoSchema(Get(v, "commerceUserInfo"), normalize).Ok?)
    ensures Get(v, "commerceUserInfo") != Undefined && r.Ok? ==> r.value == Some(CommerceUserInfoSchema(Get(v, "commerceUserInfo"), normalize).value)
  {
    Field(v, "commerceUserInfo", w => ZOptional(w, u => CommerceUserInfoSchema(u, normalize)))
  }

  /** Every property of a user object that can fail passes its schema. */
  predicate UserFieldsOk(v: Value, host: Host) {
    var n := host.normalizeString;
    && StringKey(v, "id", n).Ok? && StringKey(v, "uniqueId", n).Ok? && StringKey(v, "secUid", n).Ok?
    && StringKey(v, "nickname", n).Ok? && BooleanKey(v, "verified", host.normalizeBoolean).Ok? && StringKey(v, "signature", n).Ok?
    && StringKey(v, "avatarThumb", n).Ok? && StringKey(v, "avatarMedium", n).Ok? && StringKey(v, "avatarLarger", n).Ok?
    && BioLinkKey(v, n).Ok? && CommerceKey(v, n).Ok?
  }

  /** `tikhubProfileUserSchema`: an object every property of which passes its schema,
      read property by property into the record; `createTime` never fails. */
  function UserSchema(v: Value, host: Host): (r: Parsed<User>)
    ensures r.Ok? <==> v.Obj? && UserFieldsOk(v, host)
    ensures var n := host.normalizeString;
            r.Ok? ==> r.value == User(StringKey(v, "id", n).value, StringKey(v, "uniqueId", n).value, StringKey(v, "secUid", n).value,
                                      StringKey(v, "nickname", n).value, BooleanKey(v, "verified", host.normalizeBoolean).value,
                                      StringKey(v, "signature", n).value, NormalizeNumberValue(Get(v, "createTime")),
                                      StringKey(v, "avatarThumb", n).value, StringKey(v, "avatarMedium", n).value,
                                      StringKey(v, "avatarLarger", n).value, BioLinkKey(v, n).value, CommerceKey(v, n).value)
    ensures r.Ok? ==> TikHubVideo.OptionalString(Get(v, "id"), host.normalizeString) == Ok(r.value.id)
    ensures r.Ok? ==> OptionalBoolean(Get(v, "verified"), host.normalizeBoolean) == Ok(r.value.verified)
  {
    var _ :- ZObject(v);
    var id :- StringKey(v, "id", host.normalizeString);
    var uniqueId :- StringKey(v, "uniqueId", host.normalizeString);
    var secUid :- StringKey(v, "secUid", host.normalizeString);
    var nickname :- StringKey(v, "nickname", host.normalizeString);
    var verified :- BooleanKey(v, "verified", host.normalizeBoolean);
    var signature :- StringKey(v, "signature", host.normalizeString);
    var createTime := NumberKey(v, "createTime");
    var avatarThumb :- StringKey(v, "avatarThumb", host.normalizeString);
    var avatarMedium :- StringKey(v, "avatarMedium", host.normalizeString);
    var avatarLarger :- StringKey(v, "avatarLarger", host.normalizeString);
    var bioLink :- BioLinkKey(v, host.normalizeString);
    var commerce :- CommerceKey(v, host.normalizeString);
    Ok(User(id, uniqueId, secUid, nickname, verified, signature, createTime, avatarThumb, avatarMedium, avatarLarger,
            bioLink, commerce))
  }

  /** `tikhubProfileStatsSchema`: any object passes, each count normalised. */
  function StatsSchema(v: Value): (r: Parsed<Stats>)
    ensures r.Ok? <==> v.Obj?
    ensures r.Ok? ==> r.value == Stats(NormalizeNumberValue(Get(v, "followerCount")), NormalizeNumberValue(Get(v, "followingCount")),
                                       NormalizeNumberValue(Get(v, "heart")), NormalizeNumberValue(Get(v, "heartCount")),
                                       NormalizeNumberValue(Get(v, "videoCount")), NormalizeNumberValue(Get(v, "friendCount")))
  {
    var _ :- ZObject(v);
    Ok(Stats(NumberKey(v, "followerCount"), NumberKey(v, "followingCount"), NumberKey(v, "heart"),
             NumberKey(v, "heartCount"), NumberKey(v, "videoCount"), NumberKey(v, "friendCount")))
  }

  function OptionalStats(w: Value): Parsed<Option<Stats>> {
    ZOptional(w, StatsSchema)
  }

  /** `tikhubProfileResponseSchema`: `data` and `data.userInfo` must be objects,
      `data.userInfo.user` a user record, and the two statistics records absent or
      objects. */
  function ResponseSchema(v: Value, host: Host): (r: Parsed<UserInfo>)
    ensures var info := Get(Get(v, "data"), "userInfo");
            r.Ok? <==> v.Obj? && Get(v, "data").Obj? && info.Obj? && UserSchema(Get(info, "user"), host).Ok?
                       && OptionalStats(Get(info, "stats")).Ok? && OptionalStats(Get(info, "statsV2")).Ok?
    ensures var info := Get(Get(v, "data"), "userInfo");
            r.Ok? ==> r.value == UserInfo(UserSchema(Get(info, "user"), host).value, OptionalStats(Get(info, "stats")).value,
                                          OptionalStats(Get(info, "statsV2")).value)
    ensures var info := Get(Get(v, "data"), "userInfo");
            r.Ok? ==> (r.value.stats.None? <==> Get(info, "stats") == Undefined)
                      && (r.value.statsV2.None? <==> Get(info, "statsV2") == Undefined)
  {
    var _ :- ZObject(v);
    var d :- Field(v, "data", ZObject);
    var info :- Under(Key("data"), Field(d, "userInfo", ZObject));
    var user :- Under(Key("data"), Under(Key("userInfo"), Field(info, "user", u => UserSchema(u, host))));
    var stats :- Under(Key("data"), Under(Key("userInfo"), Field(info, "stats", OptionalStats)));
    var statsV2 :- Under(Key("data"), Under(Key("userInfo"), Field(info, "statsV2", OptionalStats)));
    Ok(UserInfo(user, stats, statsV2))
  }

  datatype ProfileStats = ProfileStats(followerCount: Option<real>, followingCount: Option<real>, likeCount: Option<real>,
                                       videoCount: Option<real>, friendCount: Option<real>)

  /** `TikHubProfileInfo`; `None` stands for `null`. */
  datatype ProfileInfo = ProfileInfo(userId: Option<string>, username: Option<string>, secUserId: Option<string>,
                                     nickname: Option<string>, verified: Option<bool>, avatarThumbUrl: Option<string>,
                                     avatarMediumUrl: Option<string>, avatarLargeUrl: Option<string>, bio: Option<string>,
                                     bioLink: Option<string>, category: Option<string>, createdTime: Option<real>,
                                     createdAt: Option<string>, stats: ProfileStats)

  const SchemaMismatchMessage: string := "TikHub profile response schema mismatch"

  /** A `??` chain: the first value that is present. */
  function FirstPresent(xs: seq<Option<real>>): (r: Option<real>)
    ensures r.None? <==> forall i :: 0 <= i < |xs| ==> xs[i].None?
    ensures r.Some? ==> exists i :: 0 <= i < |xs| && xs[i] == r && forall j :: 0 <= j < i ==> xs[j].None?
  {
    if xs == [] then None
    else if xs[0].Some? then xs[0]
    else
      var r := FirstPresent(xs[1..]);
      assert forall i :: 1 <= i < |xs| ==> xs[i] == xs[1..][i - 1];
      r
  }

  /** The counts a statistics record carries. */
  datatype Count = Follower | Following | Heart | HeartCount | Video | Friend

  /** `stats?.<count>`. */
  function CountOf(stats: Option<Stats>, count: Count): Option<real> {
    match stats
    case None => None
    case Some(s) =>
      match count
      case Follower => s.followerCount
      case Following => s.followingCount
      case Heart => s.heart
      case HeartCount => s.heartCount
      case Video => s.videoCount
      case Friend => s.friendCount
  }

  /** The merged counts: `statsV2` first for followers, videos and friends, `stats` first
      for followings, and for likes `heartCount` before `heart`, `statsV2` before `stats`. */
  function ProfileStatsOf(info: UserInfo): (r: ProfileStats)
    ensures r.followerCount == FirstPresent([CountOf(info.statsV2, Follower), CountOf(info.stats, Follower)])
    ensures r.followingCount == FirstPresent([CountOf(info.stats, Following), CountOf(info.statsV2, Following)])
    ensures r.likeCount == FirstPresent([CountOf(info.statsV2, HeartCount), CountOf(info.statsV2, Heart),
                                         CountOf(info.stats, HeartCount), CountOf(info.stats, Heart)])
    ensures r.videoCount == FirstPresent([CountOf(info.statsV2, Video), CountOf(info.stats, Video)])
    ensures r.friendCount == FirstPresent([CountOf(info.statsV2, Friend), CountOf(info.stats, Friend)])
  {
    ProfileStats(FirstPresent([CountOf(info.statsV2, Follower), CountOf(info.stats, Follower)]),
                 FirstPresent([CountOf(info.stats, Following), CountOf(info.statsV2, Following)]),
                 FirstPresent([CountOf(info.statsV2, HeartCount), CountOf(info.statsV2, Heart),
                               CountOf(info.stats, HeartCount), CountOf(info.stats, Heart)]),
                 FirstPresent([CountOf(info.statsV2, Video), CountOf(info.stats, Video)]),
                 FirstPresent([CountOf(info.statsV2, Friend), CountOf(info.stats, Friend)]))
  }

  /** A chain of two: the first when present, else the second. */
  lemma {:induction false} PairChain(a: Option<real>, b: Option<real>)
    ensures a.Some? ==> FirstPresent([a, b]) == a
    ensures a.None? ==> FirstPresent([a, b]) == b
  {
    if a.None? {
      assert [a, b][1..] == [b] && [b][1..] == [];
    }
  }

  /** Which record wins: `statsV2` for followers, videos and friends, `stats` for
      followings; the other fills in what the winner lacks. */
  lemma {:induction false} StatsPrecedence(info: UserInfo)
    ensures var r := ProfileStatsOf(info);
            && (CountOf(info.statsV2, Follower).Some? ==> r.followerCount == CountOf(info.statsV2, Follower))
            && (CountOf(info.statsV2, Follower).None? ==> r.followerCount == CountOf(info.stats, Follower))
            && (CountOf(info.stats, Following).Some? ==> r.followingCount == CountOf(info.stats, Following))
            && (CountOf(info.stats, Following).None? ==> r.followingCount == CountOf(info.statsV2, Following))
            && (CountOf(info.statsV2, Video).Some? ==> r.videoCount == CountOf(info.statsV2, Video))
            && (CountOf(info.statsV2, Video).None? ==> r.videoCount == CountOf(info.stats, Video))
            && (CountOf(info.statsV2, Friend).Some? ==> r.friendCount == CountOf(info.statsV2, Friend))
            && (CountOf(info.statsV2, Friend).None? ==> r.friendCount == CountOf(info.stats, Friend))
  {
    PairChain(CountOf(info.statsV2, Follower), CountOf(info.stats, Follower));
    PairChain(CountOf(info.stats, Following), CountOf(info.statsV2, Following));
    PairChain(CountOf(info.statsV2, Video), CountOf(info.stats, Video));
    PairChain(CountOf(info.statsV2, Friend), CountOf(info.stats, Friend));
  }

  /** The like count is the first of `statsV2.heartCount`, `statsV2.heart`,
      `stats.heartCount`, `stats.heart` that is present, and absent only when all are. */
  lemma {:induction false} LikeCountChain(info: UserInfo)
    ensures var like := ProfileStatsOf(info).likeCount;
            && (CountOf(info.statsV2, HeartCount).Some? ==> like == CountOf(info.statsV2, HeartCount))
            && (CountOf(info.statsV2, HeartCount).None? && CountOf(info.statsV2, Heart).Some? ==> like == CountOf(info.statsV2, Heart))
            && (CountOf(info.statsV2, HeartCount).None? && CountOf(info.statsV2, Heart).None? && CountOf(info.stats, HeartCount).Some?
                ==> like == CountOf(info.stats, HeartCount))
            && (CountOf(info.statsV2, HeartCount).None? && CountOf(info.statsV2, Heart).None? && CountOf(info.stats, HeartCount).None?
                ==> like == CountOf(info.stats, Heart))
  {
    var xs := [CountOf(info.statsV2, HeartCount), CountOf(info.statsV2, Heart), CountOf(info.stats, HeartCount), CountOf(info.stats, Heart)];
    assert xs[1..] == [xs[1], xs[2], xs[3]] && xs[1..][1..] == [xs[2], xs[3]];
    PairChain(xs[2], xs[3]);
  }

  /** Where only one record is sent, its counts are taken as they are. */
  lemma {:induction false} SingleStatsRecord(info: UserInfo)
    requires info.stats.None? || info.statsV2.None?
    ensures var s := if info.stats.Some? then info.stats else info.statsV2;
            var r := ProfileStatsOf(info);
            r.followerCount == CountOf(s, Follower) && r.followingCount == CountOf(s, Following)
            && r.videoCount == CountOf(s, Video) && r.friendCount == CountOf(s, Friend)
  {
    StatsPrecedence(info);
  }

  /** The profile record built from a parsed answer. */
  function ProfileOf(info: UserInfo): (r: ProfileInfo)
    ensures var u := info.user;
            && r.userId == u.id && r.username == u.uniqueId && r.secUserId == u.secUid && r.nickname == u.nickname
            && r.verified == u.verified && r.avatarThumbUrl == u.avatarThumb && r.avatarMediumUrl == u.avatarMedium
            && r.avatarLargeUrl == u.avatarLarger && r.bio == u.signature
            && r.bioLink == (if u.bioLink.Some? then u.bioLink.value.link else None)
            && r.category == (if u.commerceUserInfo.Some? then u.commerceUserInfo.value.category else None)
    ensures r.createdTime == info.user.createTime
    ensures r.createdAt == UnixTimestampToIso(TikHubVideo.NumberOf(info.user.createTime))
    ensures r.createdAt.Some? ==> r.createdTime.Some?
    ensures r.stats == ProfileStatsOf(info)
  {
    var u := info.user;
    ProfileInfo(u.id, u.uniqueId, u.secUid, u.nickname, u.verified, u.avatarThumb, u.avatarMedium, u.avatarLarger,
                u.signature, if u.bioLink.Some? then u.bioLink.value.link else None,
                if u.commerceUserInfo.Some? then u.commerceUserInfo.value.category else None,
                u.createTime, UnixTimestampToIso(TikHubVideo.NumberOf(u.createTime)), ProfileStatsOf(info))
  }

  /** `extractTikHubProfileInfo`. */
  function ExtractTikHubProfileInfo(payload: Value, host: Host): (r: Result<ProfileInfo, AppError>)
    ensures r.Err? <==> ResponseSchema(payload, host).Err?
    ensures r.Err? ==> r.error == UpstreamResponseError(TikHubVideo.Service, SchemaMismatchMessage)
    ensures r.Ok? ==> r.value == ProfileOf(ResponseSchema(payload, host).value)
  {
    match ResponseSchema(payload, host)
    case Err(_) => Err(UpstreamResponseError(TikHubVideo.Service, SchemaMismatchMessage))
    case Ok(info) => Ok(ProfileOf(info))
  }

  /** From the payload to the profile: each user field comes from the property of the
      same meaning under `data.userInfo.user`, renamed (`uniqueId` the username,
      `signature` the bio, `avatarLarger` the large avatar), read by its field schema. */
  lemma {:induction false} ProfileFromPayload(payload: Value, host: Host)
    requires ResponseSchema(payload, host).Ok?
    ensures var u, n := Get(Get(Get(payload, "data"), "userInfo"), "user"), host.normalizeString;
            var p := ExtractTikHubProfileInfo(payload, host).value;
            && p.userId == TikHubVideo.OptionalString(Get(u, "id"), n).value
            && p.username == TikHubVideo.OptionalString(Get(u, "uniqueId"), n).value
            && p.secUserId == TikHubVideo.OptionalString(Get(u, "secUid"), n).value
            && p.nickname == TikHubVideo.OptionalString(Get(u, "nickname"), n).value
            && p.verified == OptionalBoolean(Get(u, "verified"), host.normalizeBoolean).value
            && p.avatarThumbUrl == TikHubVideo.OptionalString(Get(u, "avatarThumb"), n).value
            && p.avatarMediumUrl == TikHubVideo.OptionalString(Get(u, "avatarMedium"), n).value
            && p.avatarLargeUrl == TikHubVideo.OptionalString(Get(u, "avatarLarger"), n).value
            && p.bio == TikHubVideo.OptionalString(Get(u, "signature"), n).value
            && p.createdTime == NormalizeNumberValue(Get(u, "createTime"))
  {
  }

  /** An answer without `data.userInfo.user` is a schema mismatch. */
  lemma {:induction false} MissingUserIsMismatch(payload: Value, host: Host)
    requires Get(Get(Get(payload, "data"), "userInfo"), "user") == Undefined
    ensures ExtractTikHubProfileInfo(payload, host) == Err(UpstreamResponseError(TikHubVideo.Service, SchemaMismatchMessage))
  {
  }

  /** A user record whose fields are all absent gives a profile of `null`s, with counts
      still taken from the statistics. */
  lemma {:induction false} EmptyUserGivesNulls(payload: Value, host: Host)
    requires ResponseSchema(payload, host).Ok?
    requires var u := ResponseSchema(payload, host).value.user;
             u == User(None, None, None, None, None, None, None, None, None, None, None, None)
    ensures var p := ExtractTikHubProfileInfo(payload, host).value;
            && p.userId.None? && p.username.None? && p.secUserId.None? && p.nickname.None? && p.verified.None?
            && p.bio.None? && p.bioLink.None? && p.category.None? && p.createdTime.None? && p.createdAt.None?
            && p.stats == ProfileStatsOf(ResponseSchema(payload, host).value)
  {
  }
}
