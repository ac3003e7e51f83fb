/** The TikHub video payload: its loose zod schema, parsed into records, and
    `extractTikHubVideoInfo`, which picks the detail, the video, the download URL, the id,
    the hashtags, the duration and the media links out of it by fixed priorities. */
module TikHubVideo {
  import opened Wrappers
  import opened JsText
  import opened JsNumber
  import opened JsValue
  import opened Zod
  import opened SharedNumber
  import opened SharedDate
  import opened AppErrors
  import opened TikHubText

  /** What the extractor borrows from its host: `normalizeStringValue` (not part of this
      model), `String.prototype.toLowerCase`, and the Unicode classes `\p{L}` and `\p{N}`
      of the hashtag pattern. */
  datatype Host = Host(normalizeString: Value -> Value, toLower: string -> string, isLetterOrNumber: char -> bool)

  /** The character class `[\p{L}\p{N}_]`. */
  function TagChar(host: Host): char -> bool {
    c => c == '_' || host.isLetterOrNumber(c)
  }

  datatype Address = Address(uri: Option<string>, urlList: Option<seq<string>>)

  datatype Video = Video(duration: Option<real>, downloadNoWatermarkAddr: Option<Address>,
                         downloadAddr: Option<Address>, playAddr: Option<Address>, cover: Option<Address>,
                         originCover: Option<Address>, dynamicCover: Option<Address>)

  datatype Music = Music(playUrl: Option<Address>)

  datatype Hashtag = Hashtag(chaName: Option<string>)

  datatype Author = Author(uid: Option<string>, uniqueId: Option<string>, nickname: Option<string>)

  datatype Statistics = Statistics(playCount: Option<real>, diggCount: Option<real>,
                                   commentCount: Option<real>, shareCount: Option<real>)

  datatype Detail = Detail(awemeId: Option<string>, awemeIdStr: Option<string>, desc: Option<string>,
                           createTime: Option<real>, duration: Option<real>, chaList: Option<seq<Hashtag>>,
                           author: Option<Author>, statistics: Option<Statistics>, music: Option<Music>,
                           addedSoundMusicInfo: Option<Music>, video: Option<Video>)

  datatype Data = Data(awemeDetails: Option<seq<Detail>>, awemeDetail: Option<Detail>, video: Option<Video>)

  /** `optionalNumericFieldSchema`: never fails, and holds what `normalizeNumberValue`
      returns. */
  function OptionalNumber(v: Value): (r: Parsed<Option<real>>)
    ensures r == Ok(NormalizeNumberValue(v))
  {
    ZOptional(Denormalize(NormalizeNumberValue(v)), ZNumber)
  }

  /** `optionalStringFieldSchema`: the normalised value must be absent or a non-empty
      string. */
  function OptionalString(v: Value, normalize: Value -> Value): (r: Parsed<Option<string>>)
    ensures r.Ok? <==> normalize(v) == Undefined || (normalize(v).Str? && normalize(v).s != [])
    ensures r.Ok? ==> r.value == (if normalize(v) == Undefined then None else Some(normalize(v).s))
  {
    ZOptional(normalize(v), ZNonEmptyString)
  }

  /** `tikhubAddressSchema`: an object whose `uri`, when present, is a string and whose
      `url_list`, when present, is an array of strings. */
  function AddressSchema(v: Value): (r: Parsed<Address>)
    ensures r.Ok? <==> v.Obj? && (Get(v, "uri") == Undefined || Get(v, "uri").Str?)
                       && (Get(v, "url_list") == Undefined || ZArray(Get(v, "url_list"), ZString).Ok?)
    ensures r.Ok? ==> r.value.uri == (if Get(v, "uri").Str? then Some(Get(v, "uri").s) else None)
    ensures r.Ok? ==> (r.value.urlList.None? <==> Get(v, "url_list") == Undefined)
  {
    var _ :- ZObject(v);
    var uri :- Field(v, "uri", w => ZOptional(w, ZString));
    var urls :- Field(v, "url_list", w => ZOptional(w, u => ZArray(u, ZString)));
    Ok(Address(uri, urls))
  }

  function OptionalAddress(v: Value): (r: Parsed<Option<Address>>)
    ensures v == Undefined ==> r == Ok(None)
    ensures v != Undefined ==> (r.Ok? <==> AddressSchema(v).Ok?)
  {
    ZOptional(v, AddressSchema)
  }

  /** Property `key` read as an optional address. */
  function AddressAt(v: Value, key: string): (r: Parsed<Option<Address>>)
    ensures r.Ok? <==> OptionalAddress(Get(v, key)).Ok?
    ensures r.Ok? ==> r.value == OptionalAddress(Get(v, key)).value
  {
    Field(v, key, OptionalAddress)
  }

  /** `tikhubVideoSchema`: an object whose six addresses each pass the address schema;
      the duration is whatever `normalizeNumberValue` makes of it. */
  function VideoSchema(v: Value): (r: Parsed<Video>)
    ensures r.Ok? <==> v.Obj? && OptionalAddress(Get(v, "download_no_watermark_addr")).Ok?
                       && OptionalAddress(Get(v, "download_addr")).Ok? && OptionalAddress(Get(v, "play_addr")).Ok?
                       && OptionalAddress(Get(v, "cover")).Ok? && OptionalAddress(Get(v, "origin_cover")).Ok?
                       && OptionalAddress(Get(v, "dynamic_cover")).Ok?
    ensures r.Ok? ==> r.value == Video(NormalizeNumberValue(Get(v, "duration")), OptionalAddress(Get(v, "download_no_watermark_addr")).value,
                                       OptionalAddress(Get(v, "download_addr")).value, OptionalAddress(Get(v, "play_addr")).value,
                                       OptionalAddress(Get(v, "cover")).value, OptionalAddress(Get(v, "origin_cover")).value,
                                       OptionalAddress(Get(v, "dynamic_cover")).value)
  {
    var _ :- ZObject(v);
    var duration := Field(v, "duration", OptionalNumber).value;
    var noWatermark :- AddressAt(v, "download_no_watermark_addr");
    var download :- AddressAt(v, "download_addr");
    var play :- AddressAt(v, "play_addr");
    var cover :- AddressAt(v, "cover");
    var originCover :- AddressAt(v, "origin_cover");
    var dynamicCover :- AddressAt(v, "dynamic_cover");
    Ok(Video(duration, noWatermark, download, play, cover, originCover, dynamicCover))
  }

  function MusicSchema(v: Value): (r: Parsed<Music>)
    ensures r.Ok? <==> v.Obj? && OptionalAddress(Get(v, "play_url")).Ok?
    ensures r.Ok? ==> r.value == Music(OptionalAddress(Get(v, "play_url")).value)
  {
    var _ :- ZObject(v);
    var playUrl :- Field(v, "play_url", OptionalAddress);
    Ok(Music(playUrl))
  }

  function HashtagSchema(v: Value, normalize: Value -> Value): (r: Parsed<Hashtag>)
    ensures r.Ok? <==> v.Obj? && OptionalString(Get(v, "cha_name"), normalize).Ok?
    ensures r.Ok? ==> r.value == Hashtag(OptionalString(Get(v, "cha_name"), normalize).value)
  {
    var _ :- ZObject(v);
    var name :- Field(v, "cha_name", w => OptionalString(w, normalize));
    Ok(Hashtag(name))
  }

  /** Property `key` read as an optional string field. */
  function StringAt(v: Value, key: string, normalize: Value -> Value): (r: Parsed<Option<string>>)
    ensures r.Ok? <==> OptionalString(Get(v, key), normalize).Ok?
    ensures r.Ok? ==> r.value == OptionalString(Get(v, key), normalize).value
  {
    Field(v, key, w => OptionalString(w, normalize))
  }

  /** `tikhubAuthorSchema`: an object whose `uid`, `unique_id` and `nickname` each pass
      the optional string field schema. */
  function AuthorSchema(v: Value, normalize: Value -> Value): (r: Parsed<Author>)
    ensures r.Ok? <==> v.Obj? && OptionalString(Get(v, "uid"), normalize).Ok?
                       && OptionalString(Get(v, "unique_id"), normalize).Ok? && OptionalString(Get(v, "nickname"), normalize).Ok?
    ensures r.Ok? ==> r.value == Author(OptionalString(Get(v, "uid"), normalize).value, OptionalString(Get(v, "unique_id"), normalize).value,
                                        OptionalString(Get(v, "nickname"), normalize).value)
  {
    var _ :- ZObject(v);
    var uid :- StringAt(v, "uid", normalize);
    var uniqueId :- StringAt(v, "unique_id", normalize);
    var nickname :- StringAt(v, "nickname", normalize);
    Ok(Author(uid, uniqueId, nickname))
  }

  /** `tikhubStatisticsSchema`: any object passes, each count normalised. */
  function StatisticsSchema(v: Value): (r: Parsed<Statistics>)
    ensures r.Ok? <==> v.Obj?
    ensures r.Ok? ==> r.value == Statistics(NormalizeNumberValue(Get(v, "play_count")), NormalizeNumberValue(Get(v, "digg_count")),
                                            NormalizeNumberValue(Get(v, "comment_count")), NormalizeNumberValue(Get(v, "share_count")))
  {
    var _ :- ZObject(v);
    var play := Field(v, "play_count", OptionalNumber).value;
    var digg := Field(v, "digg_count", OptionalNumber).value;
    var comment := Field(v, "comment_count", OptionalNumber).value;
    var share := Field(v, "share_count", OptionalNumber).value;
    Ok(Statistics(play, digg, comment, share))
  }

  /** `z.array(tikhubHashtagSchema).optional()`. */
  function OptionalHashtags(w: Value, normalize: Value -> Value): Parsed<Option<seq<Hashtag>>> {
    ZOptional(w, u => ZArray(u, x => HashtagSchema(x, normalize)))
  }

  function OptionalAuthor(w: Value, normalize: Value -> Value): Parsed<Option<Author>> {
    ZOptional(w, u => AuthorSchema(u, normalize))
  }

  function OptionalStatistics(w: Value): Parsed<Option<Statistics>> {
    ZOptional(w, StatisticsSchema)
  }

  function OptionalMusic(w: Value): Parsed<Option<Music>> {
    ZOptional(w, MusicSchema)
  }

  function OptionalVideo(w: Value): Parsed<Option<Video>> {
    ZOptional(w, VideoSchema)
  }

  /** The record fields of a detail object that can fail: all but the two numbers. */
  predicate DetailFieldsOk(v: Value, normalize: Value -> Value) {
    && OptionalString(Get(v, "aweme_id"), normalize).Ok? && OptionalString(Get(v, "aweme_id_str"), normalize).Ok?
    && OptionalString(Get(v, "desc"), normalize).Ok? && OptionalHashtags(Get(v, "cha_list"), normalize).Ok?
    && OptionalAuthor(Get(v, "author"), normalize).Ok? && OptionalStatistics(Get(v, "statistics")).Ok?
    && OptionalMusic(Get(v, "music")).Ok? && OptionalMusic(Get(v, "added_sound_music_info")).Ok?
    && OptionalVideo(Get(v, "video")).Ok?
  }

  /** The detail record a detail object whose fields passed reads as. */
  function DetailOf(v: Value, normalize: Value -> Value): Detail
    requires DetailFieldsOk(v, normalize)
  {
    Detail(OptionalString(Get(v, "aweme_id"), normalize).value, OptionalString(Get(v, "aweme_id_str"), normalize).value,
           OptionalString(Get(v, "desc"), normalize).value, NormalizeNumberValue(Get(v, "create_time")),
           NormalizeNumberValue(Get(v, "duration")), OptionalHashtags(Get(v, "cha_list"), normalize).value,
           OptionalAuthor(Get(v, "author"), normalize).value, OptionalStatistics(Get(v, "statistics")).value,
           OptionalMusic(Get(v, "music")).value, OptionalMusic(Get(v, "added_sound_music_info")).value,
           OptionalVideo(Get(v, "video")).value)
  }

  /** `tikhubDetailSchema`: an object each of whose fields passes its schema, read field
      by field into the record; the two numbers never fail. */
  function DetailSchema(v: Value, normalize: Value -> Value): (r: Parsed<Detail>)
    ensures r.Ok? <==> v.Obj? && DetailFieldsOk(v, normalize)
    ensures r.Ok? ==> r.value == DetailOf(v, normalize)
  {
    var _ :- ZObject(v);
    var awemeId :- StringAt(v, "aweme_id", normalize);
    var awemeIdStr :- StringAt(v, "aweme_id_str", normalize);
    var desc :- StringAt(v, "desc", normalize);
    var createTime := Field(v, "create_time", OptionalNumber).value;
    var duration := Field(v, "duration", OptionalNumber).value;
    var chaList :- Field(v, "cha_list", w => OptionalHashtags(w, normalize));
    var author :- Field(v, "author", w => OptionalAuthor(w, normalize));
    var statistics :- Field(v, "statistics", OptionalStatistics);
    var music :- Field(v, "music", OptionalMusic);
    var addedSound :- Field(v, "added_sound_music_info", OptionalMusic);
    var video :- Field(v, "video", OptionalVideo);
    Ok(Detail(awemeId, awemeIdStr, desc, createTime, duration, chaList, author, statistics, music, addedSound, video))
  }

  function OptionalDetails(w: Value, normalize: Value -> Value): Parsed<Option<seq<Detail>>> {
    ZOptional(w, u => ZArray(u, x => DetailSchema(x, normalize)))
  }

  function OptionalDetail(w: Value, normalize: Value -> Value): Parsed<Option<Detail>> {
    ZOptional(w, u => DetailSchema(u, normalize))
  }

  /** `tikhubResponseSchema`: the payload must be an object whose `data` is an object
      whose `aweme_details`, `aweme_detail` and `video` each pass their schema. */
  function ResponseSchema(v: Value, normalize: Value -> Value): (r: Parsed<Data>)
    ensures var d := Get(v, "data");
            r.Ok? <==> v.Obj? && d.Obj? && OptionalDetails(Get(d, "aweme_details"), normalize).Ok?
                       && OptionalDetail(Get(d, "aweme_detail"), normalize).Ok? && OptionalVideo(Get(d, "video")).Ok?
    ensures var d := Get(v, "data");
            r.Ok? ==> r.value == Data(OptionalDetails(Get(d, "aweme_details"), normalize).value,
                                      OptionalDetail(Get(d, "aweme_detail"), normalize).value, OptionalVideo(Get(d, "video")).value)
  {
    var _ :- ZObject(v);
    var d :- Field(v, "data", ZObject);
    var details :- Under(Key("data"), Field(d, "aweme_details", w => OptionalDetails(w, normalize)));
    var detail :- Under(Key("data"), Field(d, "aweme_detail", w => OptionalDetail(w, normalize)));
    var video :- Under(Key("data"), Field(d, "video", OptionalVideo));
    Ok(Data(details, detail, video))
  }

  datatype VideoAuthor = VideoAuthor(userId: Option<string>, username: Option<string>, nickname: Option<string>)

  datatype VideoStats = VideoStats(playCount: Option<real>, likeCount: Option<real>,
                                   commentCount: Option<real>, shareCount: Option<real>)

  /** `TikHubVideoInfo`; `None` stands for `null`. */
  datatype VideoInfo = VideoInfo(awemeId: string, description: Option<string>, durationMs: Option<int>,
                                 createdAt: Option<string>, hashtags: seq<string>, author: VideoAuthor,
                                 stats: VideoStats, thumbnailUrl: Option<string>, audioUrl: Option<string>,
                                 downloadUrl: string)

  const Service: string := "TikHub"
  const SchemaMismatchMessage: string := "TikHub response schema mismatch"
  const NoDownloadUrlMessage: string := "TikHub response does not contain a downloadable video URL"
  const NoVideoIdMessage: string := "TikHub response does not contain a video ID"

  function UrlList(a: Address): seq<string> {
    if a.urlList.Some? then a.urlList.value else []
  }

  predicate HasNonBlankUri(a: Address) {
    a.uri.Some? && !AllWhiteSpace(a.uri.value)
  }

  /** `getFirstUrl`: the first entry of `url_list` that is not blank, else `uri`, each
      trimmed; `None` when the address has neither. */
  function FirstUrl(address: Option<Address>): (r: Option<string>)
    ensures r.Some? ==> r.value != [] && Trimmed(r.value)
    ensures r.None? <==> address.None? || ((forall i :: 0 <= i < |UrlList(address.value)| ==> AllWhiteSpace(UrlList(address.value)[i]))
                                           && !HasNonBlankUri(address.value))
  {
    match address
    case None => None
    case Some(a) =>
      FirstNonBlank(UrlList(a)).OrElse(if HasNonBlankUri(a) then Some(Trim(a.uri.value)) else None)
  }

  /** The first URL of the list that is not blank wins over `uri`. */
  lemma {:induction false} UrlListBeforeUri(a: Address, i: nat)
    requires IsFirstNonBlank(UrlList(a), i)
    ensures FirstUrl(Some(a)) == Some(Trim(UrlList(a)[i]))
  {
    FirstNonBlankAt(UrlList(a), i);
  }

  /** `uri` is the fallback when the list is absent or all blank. */
  lemma {:induction false} UriFallback(a: Address)
    requires forall i :: 0 <= i < |UrlList(a)| ==> AllWhiteSpace(UrlList(a)[i])
    requires HasNonBlankUri(a)
    ensures FirstUrl(Some(a)) == Some(Trim(a.uri.value))
  {
  }

  /** `data.aweme_details?.[0] ?? data.aweme_detail`. */
  function FirstDetail(data: Data): (r: Option<Detail>)
    ensures data.awemeDetails.Some? && data.awemeDetails.value != [] ==> r == Some(data.awemeDetails.value[0])
    ensures data.awemeDetails.None? || data.awemeDetails.value == [] ==> r == data.awemeDetail
  {
    if data.awemeDetails.Some? && data.awemeDetails.value != [] then Some(data.awemeDetails.value[0])
    else data.awemeDetail
  }

  /** `firstDetail?.video ?? data.video`. */
  function SelectedVideo(data: Data): (r: Option<Video>)
    ensures r.Some? ==> r == data.video || (FirstDetail(data).Some? && r == FirstDetail(data).value.video)
    ensures FirstDetail(data).Some? && FirstDetail(data).value.video.Some? ==> r == FirstDetail(data).value.video
  {
    var detail := FirstDetail(data);
    (if detail.Some? then detail.value.video else None).OrElse(data.video)
  }

  /** The addresses a video record carries. */
  datatype AddressKind = NoWatermark | Download | Play | Cover | OriginCover | DynamicCover

  /** `video?.<kind>`. */
  function VideoAddress(video: Option<Video>, kind: AddressKind): Option<Address> {
    match video
    case None => None
    case Some(v) =>
      match kind
      case NoWatermark => v.downloadNoWatermarkAddr
      case Download => v.downloadAddr
      case Play => v.playAddr
      case Cover => v.cover
      case OriginCover => v.originCover
      case DynamicCover => v.dynamicCover
  }

  /** The watermark-free address first, then the download address, then the play address. */
  function DownloadUrl(video: Option<Video>): (r: Option<string>)
    ensures r.Some? ==> r.value != [] && Trimmed(r.value)
    ensures r.None? <==> FirstUrl(VideoAddress(video, NoWatermark)).None?
                         && FirstUrl(VideoAddress(video, Download)).None?
                         && FirstUrl(VideoAddress(video, Play)).None?
    ensures FirstUrl(VideoAddress(video, NoWatermark)).Some? ==> r == FirstUrl(VideoAddress(video, NoWatermark))
  {
    FirstUrl(VideoAddress(video, NoWatermark))
      .OrElse(FirstUrl(VideoAddress(video, Download)))
      .OrElse(FirstUrl(VideoAddress(video, Play)))
  }

  /** `firstDetail?.aweme_id ?? firstDetail?.aweme_id_str`. */
  function AwemeId(detail: Option<Detail>): (r: Option<string>)
    ensures r.Some? ==> detail.Some? && (r == detail.value.awemeId || r == detail.value.awemeIdStr)
    ensures detail.Some? && detail.value.awemeId.Some? ==> r == detail.value.awemeId
  {
    if detail.None? then None else detail.value.awemeId.OrElse(detail.value.awemeIdStr)
  }

  /** The topic names that are present, in order. */
  function TopicNames(tags: seq<Hashtag>): (r: seq<string>)
    ensures |r| <= |tags|
    ensures forall x :: x in r <==> exists k :: 0 <= k < |tags| && tags[k].chaName == Some(x)
    ensures |tags| == 1 ==> r == (if tags[0].chaName.Some? then [tags[0].chaName.value] else [])
  {
    if tags == [] then []
    else
      var rest := TopicNames(tags[1..]);
      assert forall k :: 1 <= k < |tags| ==> tags[k] == tags[1..][k - 1];
      match tags[0].chaName
      case Some(x) => [x] + rest
      case None => rest
  }

  /** The names of a list of topics are those of its first part, then those of the
      rest: order is kept and nothing is added or lost. */
  lemma {:induction false} TopicNamesAppend(a: seq<Hashtag>, b: seq<Hashtag>)
    ensures TopicNames(a + b) == TopicNames(a) + TopicNames(b)
    decreases |a|
  {
    if a != [] {
      assert (a + b)[0] == a[0] && (a + b)[1..] == a[1..] + b;
      TopicNamesAppend(a[1..], b);
      var head := if a[0].chaName.Some? then [a[0].chaName.value] else [];
      assert TopicNames(a) == head + TopicNames(a[1..]);
      assert TopicNames(a + b) == head + TopicNames(a[1..] + b);
      assert head + (TopicNames(a[1..]) + TopicNames(b)) == (head + TopicNames(a[1..])) + TopicNames(b);
    } else {
      assert a + b == b;
    }
  }

  function NormalizeAll(tags: seq<string>, lower: string -> string): seq<string> {
    seq(|tags|, k requires 0 <= k < |tags| => NormalizeHashtag(tags[k], lower))
  }

  /** The `cha_list` names, normalised. */
  function TopicHashtags(detail: Option<Detail>, host: Host): (r: seq<string>)
    ensures detail.None? || detail.value.chaList.None? ==> r == []
    ensures detail.Some? && detail.value.chaList.Some? ==> r == NormalizeAll(TopicNames(detail.value.chaList.value), host.toLower)
  {
    if detail.Some? && detail.value.chaList.Some? then NormalizeAll(TopicNames(detail.value.chaList.value), host.toLower)
    else []
  }

  /** The tags written into the description, normalised. */
  function DescriptionHashtags(description: Option<string>, host: Host): (r: seq<string>)
    ensures description.None? ==> r == []
    ensures description.Some? && !host.isLetterOrNumber('#')
            ==> var starts := TagStarts(description.value, 0, TagChar(host));
                |r| == |starts|
                && forall k :: 0 <= k < |r| ==> r[k] == NormalizeHashtag(TagText(description.value, starts[k], TagChar(host)), host.toLower)
  {
    if description.None? then []
    else NormalizeAll(DescriptionTags(description.value, TagChar(host)), host.toLower)
  }

  /** The topics first, then the description's tags, each value once. */
  function Hashtags(detail: Option<Detail>, host: Host): (r: seq<string>)
    ensures NoDuplicates(r)
    ensures forall x :: x in r <==> x in TopicHashtags(detail, host) || x in DescriptionHashtags(Description(detail), host)
  {
    Dedupe(TopicHashtags(detail, host) + DescriptionHashtags(Description(detail), host))
  }

  /** The topics lead: the hashtags start with the de-duplicated topic names, in their
      order, and the description only adds after them. */
  lemma {:induction false} TopicsLead(detail: Option<Detail>, host: Host)
    ensures var topics := Dedupe(TopicHashtags(detail, host));
            |topics| <= |Hashtags(detail, host)| && Hashtags(detail, host)[..|topics|] == topics
  {
    DedupeKeepsPrefix(TopicHashtags(detail, host), DescriptionHashtags(Description(detail), host));
  }

  function Description(detail: Option<Detail>): Option<string> {
    if detail.Some? then detail.value.desc else None
  }

  function CreateTime(detail: Option<Detail>): Option<real> {
    if detail.Some? then detail.value.createTime else None
  }

  /** `music?.play_url`. */
  function PlayUrl(music: Option<Music>): Option<Address> {
    if music.Some? then music.value.playUrl else None
  }

  function NumberOf(value: Option<real>): Option<Number> {
    if value.Some? then Some(Finite(value.value)) else None
  }

  /** `normalizeDurationMs(video?.duration) ?? normalizeDurationMs(firstDetail?.duration)`. */
  function DurationMs(video: Option<Video>, detail: Option<Detail>): Option<int> {
    NormalizeDurationMs(if video.Some? then video.value.duration else None)
      .OrElse(NormalizeDurationMs(if detail.Some? then detail.value.duration else None))
  }

  /** The author fields, `null` where absent. */
  function AuthorOf(detail: Option<Detail>): VideoAuthor {
    if detail.Some? && detail.value.author.Some? then
      var a := detail.value.author.value;
      VideoAuthor(a.uid, a.uniqueId, a.nickname)
    else VideoAuthor(None, None, None)
  }

  /** The counts, `digg_count` as the like count, `null` where absent. */
  function StatsOf(detail: Option<Detail>): VideoStats {
    if detail.Some? && detail.value.statistics.Some? then
      var s := detail.value.statistics.value;
      VideoStats(s.playCount, s.diggCount, s.commentCount, s.shareCount)
    else VideoStats(None, None, None, None)
  }

  /** The original cover first, then the cover, then the dynamic cover. */
  function ThumbnailUrl(video: Option<Video>): Option<string> {
    FirstUrl(VideoAddress(video, OriginCover))
      .OrElse(FirstUrl(VideoAddress(video, Cover)))
      .OrElse(FirstUrl(VideoAddress(video, DynamicCover)))
  }

  /** The music's play URL first, then the added sound's. */
  function AudioUrl(detail: Option<Detail>): Option<string> {
    if detail.None? then None
    else FirstUrl(PlayUrl(detail.value.music)).OrElse(FirstUrl(PlayUrl(detail.value.addedSoundMusicInfo)))
  }

  /** What `extractTikHubVideoInfo` makes of a payload that matched the schema. */
  function ExtractFromData(data: Data, host: Host): (r: Result<VideoInfo, AppError>)
    ensures var video := SelectedVideo(data);
            r.Err? <==> DownloadUrl(video).None? || AwemeId(FirstDetail(data)).None?
    ensures DownloadUrl(SelectedVideo(data)).None? ==> r == Err(UpstreamResponseError(Service, NoDownloadUrlMessage))
    ensures DownloadUrl(SelectedVideo(data)).Some? && AwemeId(FirstDetail(data)).None? ==> r == Err(UpstreamResponseError(Service, NoVideoIdMessage))
    ensures r.Ok? ==> r.value.downloadUrl == DownloadUrl(SelectedVideo(data)).value && r.value.downloadUrl != []
                      && r.value.awemeId == AwemeId(FirstDetail(data)).value
                      && Trimmed(r.value.downloadUrl) && NoDuplicates(r.value.hashtags)
  {
    var detail := FirstDetail(data);
    var video := SelectedVideo(data);
    if DownloadUrl(video).None? then Err(UpstreamResponseError(Service, NoDownloadUrlMessage))
    else if AwemeId(detail).None? then Err(UpstreamResponseError(Service, NoVideoIdMessage))
    else Ok(VideoInfo(AwemeId(detail).value, Description(detail), DurationMs(video, detail),
                      UnixTimestampToIso(NumberOf(CreateTime(detail))), Hashtags(detail, host), AuthorOf(detail),
                      StatsOf(detail), ThumbnailUrl(video), AudioUrl(detail), DownloadUrl(video).value))
  }

  /** `extractTikHubVideoInfo`: a payload the schema refuses is a schema mismatch. */
  function ExtractTikHubVideoInfo(payload: Value, host: Host): (r: Result<VideoInfo, AppError>)
    ensures ResponseSchema(payload, host.normalizeString).Err? ==> r == Err(UpstreamResponseError(Service, SchemaMismatchMessage))
    ensures ResponseSchema(payload, host.normalizeString).Ok? ==> r == ExtractFromData(ResponseSchema(payload, host.normalizeString).value, host)
  {
    match ResponseSchema(payload, host.normalizeString)
    case Err(_) => Err(UpstreamResponseError(Service, SchemaMismatchMessage))
    case Ok(data) => ExtractFromData(data, host)
  }

  /** A video record whose watermark-free address is `null` makes the whole payload a
      schema mismatch. */
  lemma {:induction false} NullAddressIsMismatch(host: Host)
    ensures var payload := Obj(map["data" := Obj(map["video" := Obj(map["download_no_watermark_addr" := Null])])]);
            ExtractTikHubVideoInfo(payload, host) == Err(UpstreamResponseError(Service, SchemaMismatchMessage))
  {
    var video := Obj(map["download_no_watermark_addr" := Null]);
    assert VideoSchema(video).Err? by {
      assert Get(video, "download_no_watermark_addr") == Null;
      assert AddressSchema(Null).Err?;
    }
    var d := Obj(map["video" := video]);
    assert Get(d, "video") == video && Get(d, "aweme_details") == Undefined && Get(d, "aweme_detail") == Undefined;
    var payload := Obj(map["data" := d]);
    assert Get(payload, "data") == d;
    assert ResponseSchema(payload, host.normalizeString).Err?;
  }

  /** An answer with an empty video record passes the schema but has nothing to download. */
  lemma {:induction false} EmptyVideoHasNoDownload(host: Host)
    ensures var payload := Obj(map["data" := Obj(map["video" := Obj(map[])])]);
            ExtractTikHubVideoInfo(payload, host) == Err(UpstreamResponseError(Service, NoDownloadUrlMessage))
  {
    var video := Obj(map[]);
    var d := Obj(map["video" := video]);
    assert Get(d, "video") == video && Get(d, "aweme_details") == Undefined && Get(d, "aweme_detail") == Undefined;
    var payload := Obj(map["data" := d]);
    assert Get(payload, "data") == d;
    var empty := Video(None, None, None, None, None, None, None);
    assert VideoSchema(video) == Ok(empty);
    assert ResponseSchema(payload, host.normalizeString) == Ok(Data(None, None, Some(empty)));
    NothingToDownload(Data(None, None, Some(empty)), host);
  }

  lemma {:induction false} NothingToDownload(data: Data, host: Host)
    requires data.awemeDetails.None? && data.awemeDetail.None? && data.video == Some(Video(None, None, None, None, None, None, None))
    ensures ExtractFromData(data, host) == Err(UpstreamResponseError(Service, NoDownloadUrlMessage))
  {
    assert DownloadUrl(SelectedVideo(data)).None?;
  }

  predicate LowerWord(s: string) {
    forall k :: 0 <= k < |s| ==> 'a' <= s[k] <= 'z'
  }

  /** A single trimmed URL in a list is what the address yields. */
  lemma {:induction false} SingleUrl(url: string)
    requires url != [] && Trimmed(url)
    ensures FirstUrl(Some(Address(None, Some([url])))) == Some(url)
  {
    TrimOfTrimmed(url);
    UrlListBeforeUri(Address(None, Some([url])), 0);
  }

  lemma {:induction false} TwoTopicNames(a: string, b: string)
    ensures TopicNames([Hashtag(Some(a)), Hashtag(Some(b))]) == [a, b]
  {
    var tags := [Hashtag(Some(a)), Hashtag(Some(b))];
    assert tags[1..] == [Hashtag(Some(b))] && tags[1..][1..] == [];
    assert TopicNames(tags[1..]) == [b];
  }

  /** Two different values met twice are kept once each, in the order first seen. */
  lemma {:induction false} DedupeTwice(a: string, b: string)
    requires a != b
    ensures Dedupe([a, b] + [a, b]) == [a, b]
  {
    DedupeAbsorbs([a, b], [a, b]);
  }

  predicate LowerCaseIdentity(host: Host) {
    host.toLower("travelhacks") == "travelhacks" && host.toLower("familyvacation") == "familyvacation"
  }

  predicate AsciiLettersAreLetters(host: Host) {
    (forall c :: 'a' <= c <= 'z' ==> host.isLetterOrNumber(c)) && !host.isLetterOrNumber(' ')
  }

  lemma {:induction false} SampleTopics(host: Host, d: Detail)
    requires LowerCaseIdentity(host)
    requires d.chaList == Some([Hashtag(Some("travelhacks")), Hashtag(Some("familyvacation"))])
    ensures TopicHashtags(Some(d), host) == ["travelhacks", "familyvacation"]
  {
    var t1, t2 := "travelhacks", "familyvacation";
    TwoTopicNames(t1, t2);
    NormalizeTwo(t1, t2, host.toLower);
  }

  /** Two words without '#' or surrounding white space normalise to their lower case. */
  lemma {:induction false} NormalizeTwo(a: string, b: string, lower: string -> string)
    requires a != [] && a[0] != '#' && Trimmed(a) && b != [] && b[0] != '#' && Trimmed(b)
    ensures NormalizeAll([a, b], lower) == [lower(a), lower(b)]
  {
    var r := NormalizeAll([a, b], lower);
    assert r[0] == lower(a) by {
      NormalizeWord(a, lower);
    }
    assert r[1] == lower(b) by {
      NormalizeWord(b, lower);
    }
    assert r == [lower(a), lower(b)];
  }

  lemma {:induction false} NormalizeWord(a: string, lower: string -> string)
    requires a != [] && a[0] != '#' && Trimmed(a)
    ensures NormalizeHashtag(a, lower) == lower(a)
  {
    TrimOfTrimmed(a);
  }

  /** Two lower-case words marked with '#' after a plain prefix are the description's
      hashtags. */
  lemma {:induction false} TwoWordDescription(p: string, a: string, b: string, host: Host)
    requires AsciiLettersAreLetters(host) && '#' !in p && a != [] && b != [] && LowerWord(a) && LowerWord(b)
    ensures DescriptionHashtags(Some(p + "#" + a + " #" + b), host) == NormalizeAll([a, b], host.toLower)
  {
    TagsOfTwoWords(p, a, b, TagChar(host));
  }

  /** The route test's description: a plain prefix and two lower-case words marked with
      '#'. */
  lemma {:induction false} SampleDescriptionShape()
    ensures "Charlotte to NYC #travelhacks #familyvacation" == "Charlotte to NYC " + "#" + "travelhacks" + " #" + "familyvacation"
  {
  }

  lemma {:induction false} SampleDescriptionWords()
    ensures '#' !in "Charlotte to NYC " && LowerWord("travelhacks") && LowerWord("familyvacation")
  {
  }

  lemma {:induction false} SampleDescriptionTags(host: Host, desc: string)
    requires AsciiLettersAreLetters(host) && LowerCaseIdentity(host)
    requires desc == "Charlotte to NYC #travelhacks #familyvacation"
    ensures DescriptionHashtags(Some(desc), host) == ["travelhacks", "familyvacation"]
  {
    SampleDescriptionShape();
    SampleDescriptionWords();
    TwoWordDescription("Charlotte to NYC ", "travelhacks", "familyvacation", host);
    NormalizeTwo("travelhacks", "familyvacation", host.toLower);
  }

  /** The route test's hashtags: the two topics, found again in the description, each
      kept once. */
  lemma {:induction false} SampleHashtags(host: Host, d: Detail)
    requires AsciiLettersAreLetters(host) && LowerCaseIdentity(host)
    requires d.chaList == Some([Hashtag(Some("travelhacks")), Hashtag(Some("familyvacation"))])
    requires d.desc == Some("Charlotte to NYC #travelhacks #familyvacation")
    ensures Hashtags(Some(d), host) == ["travelhacks", "familyvacation"]
  {
    SampleTopics(host, d);
    SampleDescriptionTags(host, d.desc.value);
    DedupeTwice("travelhacks", "familyvacation");
  }

  /** The route test's detail record, around the given id, author and links. */
  function SampleDetail(id: string, author: Author, noWatermark: string, play: string, thumb: string): Detail {
    Detail(Some(id), None, Some("Charlotte to NYC #travelhacks #familyvacation"), Some(1758110287.0), None,
           Some([Hashtag(Some("travelhacks")), Hashtag(Some("familyvacation"))]), Some(author),
           Some(Statistics(Some(835.0), Some(44.0), Some(2.0), Some(3.0))), None, None,
           Some(Video(Some(26267.0), Some(Address(None, Some([noWatermark]))), None, Some(Address(None, Some([play]))),
                      None, Some(Address(None, Some([thumb]))), None)))
  }

  /** The route test: the parsed answer gives the video the endpoint reports, with the
      watermark-free link before the play link, the original cover, the duration already
      in milliseconds, the creation time in seconds and each hashtag once. */
  lemma {:induction false} SampleVideoInfo(host: Host, id: string, author: Author, noWatermark: string, play: string, thumb: string)
    requires AsciiLettersAreLetters(host) && LowerCaseIdentity(host)
    requires noWatermark != [] && Trimmed(noWatermark) && thumb != [] && Trimmed(thumb)
    ensures ExtractFromData(Data(None, Some(SampleDetail(id, author, noWatermark, play, thumb)), None), host)
            == Ok(VideoInfo(id, Some("Charlotte to NYC #travelhacks #familyvacation"), Some(26267),
                            Some("2025-09-17T11:58:07.000Z"), ["travelhacks", "familyvacation"],
                            VideoAuthor(author.uid, author.uniqueId, author.nickname),
                            VideoStats(Some(835.0), Some(44.0), Some(2.0), Some(3.0)),
                            Some(thumb), None, noWatermark))
  {
    var d := SampleDetail(id, author, noWatermark, play, thumb);
    var data := Data(None, Some(d), None);
    assert FirstDetail(data) == Some(d) && SelectedVideo(data) == d.video;
    SampleLinks(d, noWatermark, thumb);
    SampleFacts(d, id);
    SampleHashtags(host, d);
    ExtractedVideoInfo(data, host, VideoInfo(id, Some("Charlotte to NYC #travelhacks #familyvacation"), Some(26267),
                                             Some("2025-09-17T11:58:07.000Z"), ["travelhacks", "familyvacation"],
                                             VideoAuthor(author.uid, author.uniqueId, author.nickname),
                                             VideoStats(Some(835.0), Some(44.0), Some(2.0), Some(3.0)),
                                             Some(thumb), None, noWatermark));
  }

  /** The record is assembled field by field from the selected detail and video. */
  lemma {:induction false} ExtractedVideoInfo(data: Data, host: Host, info: VideoInfo)
    requires DownloadUrl(SelectedVideo(data)) == Some(info.downloadUrl) && AwemeId(FirstDetail(data)) == Some(info.awemeId)
    requires Description(FirstDetail(data)) == info.description && DurationMs(SelectedVideo(data), FirstDetail(data)) == info.durationMs
    requires UnixTimestampToIso(NumberOf(CreateTime(FirstDetail(data)))) == info.createdAt
    requires Hashtags(FirstDetail(data), host) == info.hashtags
    requires AuthorOf(FirstDetail(data)) == info.author && StatsOf(FirstDetail(data)) == info.stats
    requires ThumbnailUrl(SelectedVideo(data)) == info.thumbnailUrl && AudioUrl(FirstDetail(data)) == info.audioUrl
    ensures ExtractFromData(data, host) == Ok(info)
  {
  }

  lemma {:induction false} SampleLinks(d: Detail, noWatermark: string, thumb: string)
    requires noWatermark != [] && Trimmed(noWatermark) && thumb != [] && Trimmed(thumb)
    requires d.video.Some? && d.video.value.downloadNoWatermarkAddr == Some(Address(None, Some([noWatermark])))
    requires d.video.value.originCover == Some(Address(None, Some([thumb])))
    ensures DownloadUrl(d.video) == Some(noWatermark) && ThumbnailUrl(d.video) == Some(thumb)
  {
    OnlyUrl(d.video, NoWatermark, noWatermark);
    OnlyUrl(d.video, OriginCover, thumb);
  }

  /** An address holding a single trimmed URL yields it. */
  lemma {:induction false} OnlyUrl(video: Option<Video>, kind: AddressKind, url: string)
    requires url != [] && Trimmed(url) && VideoAddress(video, kind) == Some(Address(None, Some([url])))
    ensures FirstUrl(VideoAddress(video, kind)) == Some(url)
  {
    SingleUrl(url);
  }

  lemma {:induction false} SampleFacts(d: Detail, id: string)
    requires d.awemeId == Some(id) && d.createTime == Some(1758110287.0) && d.music.None? && d.addedSoundMusicInfo.None?
    requires d.video.Some? && d.video.value.duration == Some(26267.0)
    ensures AwemeId(Some(d)) == Some(id) && DurationMs(d.video, Some(d)) == Some(26267) && AudioUrl(Some(d)) == None
    ensures UnixTimestampToIso(NumberOf(CreateTime(Some(d)))) == Some("2025-09-17T11:58:07.000Z")
  {
    UnixTimestampOfSeptember2025();
  }
}
