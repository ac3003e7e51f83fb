/** The older TikHub video payload and its extractor: the same records as the newer one,
    read through two pre-processing field schemas, with no `uri` fallback, ASCII-only
    description tags and a random id when the answer carries none. The parsed records
    reuse the newer record types; this schema never fills in `uri` or the music fields. */
module TikHubLegacy {
  import opened Wrappers
  import opened JsText
  import opened JsNumber
  import opened JsValue
  import opened Zod
  import opened SharedNumber
  import opened SharedDate
  import opened AppErrors
  import opened TikHubText
  import TikHubVideo

  /** What a pre-processor hands on to the coercing schema: a string, a finite number,
      or `undefined`. */
  datatype Pre = PText(s: string) | PNumber(n: real) | PUndefined

  /** `Number(x)` of a pre-processed value; `Number(undefined)` is NaN. */
  function CoerceNumber(p: Pre): Number {
    match p
    case PText(s) => StringToNumber(s)
    case PNumber(n) => Finite(n)
    case PUndefined => NaN
  }

  /** `String(x)` of a pre-processed value; `String(undefined)` is `"undefined"`. */
  function CoerceString(p: Pre, fraction: real -> string): string {
    match p
    case PText(s) => s
    case PNumber(n) => NumberToString(Finite(n), fraction)
    case PUndefined => UndefinedText
  }

  /** The pre-processor of `numericFieldSchema`: a finite number, or a trimmed string that
      reads as a finite number; anything else becomes `undefined`. */
  function NumericPreprocess(v: Value): (p: Pre)
    ensures p == PUndefined <==> NormalizeNumberValue(v).None?
    ensures p != PUndefined ==> CoerceNumber(p) == Finite(NormalizeNumberValue(v).value)
  {
    match v
    case Num(n) => if n.Finite? then PNumber(n.value) else PUndefined
    case Str(s) => NumericText(s)
    case _ => PUndefined
  }

  function NumericText(s: string): (p: Pre)
    ensures p == PUndefined <==> NormalizeNumberValue(Str(s)).None?
    ensures p != PUndefined ==> CoerceNumber(p) == Finite(NormalizeNumberValue(Str(s)).value)
  {
    var trimmed := Trim(s);
    NormalizedText(s);
    if trimmed == [] then PUndefined
    else if StringToNumber(trimmed).Finite? then PText(trimmed) else PUndefined
  }

  /** The pre-processor of `stringFieldSchema`: a string trimmed, `undefined` when that
      leaves nothing; a finite number as it is; anything else `undefined`. */
  function StringPreprocess(v: Value): (p: Pre)
    ensures v.Str? ==> p == (if AllWhiteSpace(v.s) then PUndefined else PText(Trim(v.s)))
    ensures v.Num? ==> p == (if v.n.Finite? then PNumber(v.n.value) else PUndefined)
    ensures !v.Str? && !v.Num? ==> p == PUndefined
  {
    match v
    case Str(s) => var trimmed := Trim(s); if trimmed == [] then PUndefined else PText(trimmed)
    case Num(n) => if n.Finite? then PNumber(n.value) else PUndefined
    case _ => PUndefined
  }

  /** `numericFieldSchema.optional()` as written: a present value that does not pre-process
      to a number is coerced from `undefined` to NaN, which `z.number()` refuses. */
  function NumberFieldAsWritten(v: Value): (r: Parsed<Option<real>>)
    ensures v == Undefined ==> r == Ok(None)
    ensures v != Undefined ==> (r.Ok? <==> NormalizeNumberValue(v).Some?)
    ensures r.Ok? ==> r.value == NormalizeNumberValue(v)
  {
    if v == Undefined then Ok(None)
    else
      var x :- ZNumber(Num(CoerceNumber(NumericPreprocess(v))));
      Ok(Some(x))
  }

  /** `stringFieldSchema.optional()` as written: a present value that pre-processes to
      `undefined` is coerced to the text `"undefined"`, which passes `.trim().min(1)`. */
  function StringFieldAsWritten(v: Value, fraction: real -> string): (r: Parsed<Option<string>>)
    ensures v == Undefined ==> r == Ok(None)
    ensures v != Undefined && StringPreprocess(v) == PUndefined ==> r == Ok(Some(UndefinedText))
    ensures v.Str? && !AllWhiteSpace(v.s) ==> r == Ok(Some(Trim(v.s)))
    ensures r.Ok? && r.value.Some? ==> r.value.value != [] && Trimmed(r.value.value)
  {
    if v == Undefined then Ok(None)
    else
      var s :- ZNonEmptyString(Str(CoercedText(v, fraction)));
      Ok(Some(s))
  }

  /** `z.coerce.string().trim()` after the pre-processor. */
  function CoercedText(v: Value, fraction: real -> string): (t: string)
    ensures StringPreprocess(v) == PUndefined ==> t == UndefinedText
    ensures v.Str? && !AllWhiteSpace(v.s) ==> t == Trim(v.s)
    ensures Trimmed(t)
  {
    StringCoercion(v, fraction);
    Trim(CoerceString(StringPreprocess(v), fraction))
  }

  lemma {:induction false} StringCoercion(v: Value, fraction: real -> string)
    ensures StringPreprocess(v) == PUndefined ==> Trim(CoerceString(StringPreprocess(v), fraction)) == UndefinedText
    ensures v.Str? && !AllWhiteSpace(v.s) ==> Trim(CoerceString(StringPreprocess(v), fraction)) == Trim(v.s)
  {
    if StringPreprocess(v) == PUndefined {
      CoercedUndefined(StringPreprocess(v), fraction);
    } else if v.Str? {
      TrimIdempotent(v.s);
    }
  }

  lemma {:induction false} CoercedUndefined(p: Pre, fraction: real -> string)
    requires p == PUndefined
    ensures Trim(CoerceString(p, fraction)) == UndefinedText
  {
    assert CoerceString(p, fraction) == UndefinedText;
    UndefinedIsTrimmed();
  }

  /** `String(undefined)`. */
  const UndefinedText: string := "undefined"

  lemma {:induction false} UndefinedIsTrimmed()
    ensures Trim(UndefinedText) == UndefinedText
  {
    assert !IsWhiteSpace(UndefinedText[0]) && !IsWhiteSpace(UndefinedText[|UndefinedText| - 1]);
    TrimOfTrimmed(UndefinedText);
  }

  /** The evident intent of `numericFieldSchema`: what does not read as a finite number is
      absent, and never fails the payload. */
  function NumberField(v: Value): (r: Parsed<Option<real>>)
    ensures r == Ok(NormalizeNumberValue(v))
  {
    var p := NumericPreprocess(v);
    if p == PUndefined then Ok(None)
    else
      var x := ZNumber(Num(CoerceNumber(p))).value;
      Ok(Some(x))
  }

  /** The evident intent of `stringFieldSchema`: a blank string, `null` or any other
      non-text value is absent rather than the text `"undefined"`. */
  function StringField(v: Value, fraction: real -> string): (r: Parsed<Option<string>>)
    ensures r.Ok?
    ensures StringPreprocess(v) == PUndefined ==> r.value.None?
    ensures v.Str? ==> r.value == (if AllWhiteSpace(v.s) then None else Some(Trim(v.s)))
    ensures r.value.Some? ==> r.value.value != [] && Trimmed(r.value.value)
  {
    var p := StringPreprocess(v);
    if p == PUndefined then Ok(None)
    else
      var t := Trim(CoerceString(p, fraction));
      assert v.Str? ==> t == Trim(v.s) by {
        if v.Str? {
          TrimIdempotent(v.s);
        }
      }
      if t == [] then Ok(None) else Ok(Some(t))
  }

  /** The two numeric readings agree wherever the value is absent or reads as a number;
      elsewhere the one as written fails and the corrected one is absent. */
  lemma {:induction false} NumberFieldCorrection(v: Value)
    ensures v == Undefined || NormalizeNumberValue(v).Some? ==> NumberFieldAsWritten(v) == NumberField(v)
    ensures v != Undefined && NormalizeNumberValue(v).None? ==> NumberFieldAsWritten(v).Err? && NumberField(v) == Ok(None)
  {
  }

  /** The two string readings agree wherever the value is absent, a non-blank string or a
      finite number that prints as text; elsewhere only the one as written reads
      `"undefined"`. */
  lemma {:induction false} StringFieldCorrection(v: Value, fraction: real -> string)
    ensures v.Str? && !AllWhiteSpace(v.s) ==> StringFieldAsWritten(v, fraction) == StringField(v, fraction)
    ensures v == Undefined ==> StringFieldAsWritten(v, fraction) == StringField(v, fraction)
    ensures v != Undefined && StringPreprocess(v) == PUndefined
            ==> StringFieldAsWritten(v, fraction) == Ok(Some(UndefinedText)) && StringField(v, fraction) == Ok(None)
  {
  }

  /** Which reading of the two field schemas a record schema uses. */
  datatype Fields = AsWritten | Corrected

  function NumberFieldOf(v: Value, fields: Fields): (r: Parsed<Option<real>>)
    ensures r.Ok? ==> r.value == NormalizeNumberValue(v)
    ensures fields == Corrected ==> r.Ok?
    ensures fields == AsWritten ==> (r.Err? <==> v != Undefined && NormalizeNumberValue(v).None?)
  {
    if fields == AsWritten then NumberFieldAsWritten(v) else NumberField(v)
  }

  function StringFieldOf(v: Value, fields: Fields, fraction: real -> string): (r: Parsed<Option<string>>)
    ensures fields == Corrected ==> r == StringField(v, fraction)
    ensures fields == AsWritten ==> r == StringFieldAsWritten(v, fraction)
  {
    if fields == AsWritten then StringFieldAsWritten(v, fraction) else StringField(v, fraction)
  }

  /** Property `key` read by the string field schema. */
  function StringKey(v: Value, key: string, fields: Fields, fraction: real -> string): (r: Parsed<Option<string>>)
    ensures r.Ok? <==> StringFieldOf(Get(v, key), fields, fraction).Ok?
    ensures r.Ok? ==> r.value == StringFieldOf(Get(v, key), fields, fraction).value
    ensures Get(v, key) == Undefined ==> r == Ok(None)
  {
    Under(Key(key), StringFieldOf(Get(v, key), fields, fraction))
  }

  /** Property `key` read by the numeric field schema. */
  function NumberKey(v: Value, key: string, fields: Fields): (r: Parsed<Option<real>>)
    ensures r.Ok? <==> NumberFieldOf(Get(v, key), fields).Ok?
    ensures r.Ok? ==> r.value == NormalizeNumberValue(Get(v, key))
    ensures Get(v, key) == Undefined ==> r == Ok(None)
  {
    Under(Key(key), NumberFieldOf(Get(v, key), fields))
  }

  /** `tikhubAddressSchema`: an object whose `url_list`, when present, is an array of
      strings. */
  function AddressSchema(v: Value): (r: Parsed<TikHubVideo.Address>)
    ensures r.Ok? <==> v.Obj? && (Get(v, "url_list") == Undefined || ZArray(Get(v, "url_list"), ZString).Ok?)
    ensures r.Ok? ==> r.value.uri.None? && (r.value.urlList.None? <==> Get(v, "url_list") == Undefined)
  {
    var _ :- ZObject(v);
    var urls :- Field(v, "url_list", w => ZOptional(w, u => ZArray(u, ZString)));
    Ok(TikHubVideo.Address(None, urls))
  }

  function OptionalAddress(v: Value): (r: Parsed<Option<TikHubVideo.Address>>)
    ensures v == Undefined ==> r == Ok(None)
    ensures v != Undefined ==> (r.Ok? <==> AddressSchema(v).Ok?)
    ensures r.Ok? && r.value.Some? ==> r.value.value.uri.None?
  {
    ZOptional(v, AddressSchema)
  }

  /** Property `key` read as an optional address. */
  function AddressAt(v: Value, key: string): (r: Parsed<Option<TikHubVideo.Address>>)
    ensures r.Ok? <==> OptionalAddress(Get(v, key)).Ok?
    ensures r.Ok? ==> r.value == OptionalAddress(Get(v, key)).value
  {
    Field(v, key, OptionalAddress)
  }

  /** `tikhubVideoSchema`: an object whose duration passes the numeric field schema and
      whose six addresses pass the address schema. */
  function VideoSchema(v: Value, fields: Fields): (r: Parsed<TikHubVideo.Video>)
    ensures r.Ok? <==> v.Obj? && NumberFieldOf(Get(v, "duration"), fields).Ok?
                       && OptionalAddress(Get(v, "download_no_watermark_addr")).Ok?
                       && OptionalAddress(Get(v, "download_addr")).Ok? && OptionalAddress(Get(v, "play_addr")).Ok?
                       && OptionalAddress(Get(v, "cover")).Ok? && OptionalAddress(Get(v, "origin_cover")).Ok?
                       && OptionalAddress(Get(v, "dynamic_cover")).Ok?
    ensures r.Ok? ==> r.value == TikHubVideo.Video(NormalizeNumberValue(Get(v, "duration")), OptionalAddress(Get(v, "download_no_watermark_addr")).value,
                                                   OptionalAddress(Get(v, "download_addr")).value, OptionalAddress(Get(v, "play_addr")).value,
                                                   OptionalAddress(Get(v, "cover")).value, OptionalAddress(Get(v, "origin_cover")).value,
                                                   OptionalAddress(Get(v, "dynamic_cover")).value)
  {
    var _ :- ZObject(v);
    var duration :- NumberKey(v, "duration", fields);
    var noWatermark :- AddressAt(v, "download_no_watermark_addr");
    var download :- AddressAt(v, "download_addr");
    var play :- AddressAt(v, "play_addr");
    var cover :- AddressAt(v, "cover");
    var originCover :- AddressAt(v, "origin_cover");
    var dynamicCover :- AddressAt(v, "dynamic_cover");
    Ok(TikHubVideo.Video(duration, noWatermark, download, play, cover, originCover, dynamicCover))
  }

  function HashtagSchema(v: Value, fields: Fields, fraction: real -> string): (r: Parsed<TikHubVideo.Hashtag>)
    ensures r.Ok? <==> v.Obj? && StringFieldOf(Get(v, "cha_name"), fields, fraction).Ok?
    ensures r.Ok? ==> r.value == TikHubVideo.Hashtag(StringFieldOf(Get(v, "cha_name"), fields, fraction).value)
  {
    var _ :- ZObject(v);
    var name :- Field(v, "cha_name", w => StringFieldOf(w, fields, fraction));
    Ok(TikHubVideo.Hashtag(name))
  }

  /** `tikhubAuthorSchema`: an object whose three names pass the string field schema;
      corrected, that schema never fails, so any object passes. */
  function AuthorSchema(v: Value, fields: Fields, fraction: real -> string): (r: Parsed<TikHubVideo.Author>)
    ensures r.Ok? <==> v.Obj? && StringFieldOf(Get(v, "uid"), fields, fraction).Ok?
                       && StringFieldOf(Get(v, "unique_id"), fields, fraction).Ok? && StringFieldOf(Get(v, "nickname"), fields, fraction).Ok?
    ensures r.Ok? ==> r.value == TikHubVideo.Author(StringFieldOf(Get(v, "uid"), fields, fraction).value,
                                                    StringFieldOf(Get(v, "unique_id"), fields, fraction).value,
                                                    StringFieldOf(Get(v, "nickname"), fields, fraction).value)
    ensures fields == Corrected && v.Obj? ==> r.Ok?
  {
    var _ :- ZObject(v);
    var uid :- StringKey(v, "uid", fields, fraction);
    var uniqueId :- StringKey(v, "unique_id", fields, fraction);
    var nickname :- StringKey(v, "nickname", fields, fraction);
    Ok(TikHubVideo.Author(uid, uniqueId, nickname))
  }

  /** `tikhubStatisticsSchema`: an object whose four counts each pass the numeric field
      schema. */
  function StatisticsSchema(v: Value, fields: Fields): (r: Parsed<TikHubVideo.Statistics>)
    ensures r.Ok? <==> v.Obj? && NumberFieldOf(Get(v, "play_count"), fields).Ok? && NumberFieldOf(Get(v, "digg_count"), fields).Ok?
                       && NumberFieldOf(Get(v, "comment_count"), fields).Ok? && NumberFieldOf(Get(v, "share_count"), fields).Ok?
    ensures r.Ok? ==> r.value == TikHubVideo.Statistics(NormalizeNumberValue(Get(v, "play_count")), NormalizeNumberValue(Get(v, "digg_count")),
                                                        NormalizeNumberValue(Get(v, "comment_count")), NormalizeNumberValue(Get(v, "share_count")))
  {
    var _ :- ZObject(v);
    var play :- Field(v, "play_count", w => NumberFieldOf(w, fields));
    var digg :- Field(v, "digg_count", w => NumberFieldOf(w, fields));
    var comment :- Field(v, "comment_count", w => NumberFieldOf(w, fields));
    var share :- Field(v, "share_count", w => NumberFieldOf(w, fields));
    Ok(TikHubVideo.Statistics(play, digg, comment, share))
  }

  /** Property `cha_list`, an optional array of topics. */
  function TopicsKey(v: Value, fields: Fields, fraction: real -> string): (r: Parsed<Option<seq<TikHubVideo.Hashtag>>>)
    ensures Get(v, "cha_list") == Undefined ==> r == Ok(None)
    ensures Get(v, "cha_list") != Undefined ==> (r.Ok? <==> ZArray(Get(v, "cha_list"), x => HashtagSchema(x, fields, fraction)).Ok?)
    ensures Get(v, "cha_list") != Undefined && r.Ok? ==> r.value == Some(ZArray(Get(v, "cha_list"), x => HashtagSchema(x, fields, fraction)).value)
  {
    Field(v, "cha_list", w => ZOptional(w, u => ZArray(u, x => HashtagSchema(x, fields, fraction))))
  }

  function AuthorKey(v: Value, fields: Fields, fraction: real -> string): (r: Parsed<Option<TikHubVideo.Author>>)
    ensures Get(v, "author") == Undefined ==> r == Ok(None)
    ensures Get(v, "author") != Undefined ==> (r.Ok? <==> AuthorSchema(Get(v, "author"), fields, fraction).Ok?)
    ensures Get(v, "author") != Undefined && r.Ok? ==> r.value == Some(AuthorSchema(Get(v, "author"), fields, fraction).value)
  {
    Field(v, "author", w => ZOptional(w, u => AuthorSchema(u, fields, fraction)))
  }

  function StatisticsKey(v: Value, fields: Fields): (r: Parsed<Option<TikHubVideo.Statistics>>)
    ensures Get(v, "statistics") == Undefined ==> r == Ok(None)
    ensures Get(v, "statistics") != Undefined ==> (r.Ok? <==> StatisticsSchema(Get(v, "statistics"), fields).Ok?)
    ensures Get(v, "statistics") != Undefined && r.Ok? ==> r.value == Some(StatisticsSchema(Get(v, "statistics"), fields).value)
  {
    Field(v, "statistics", w => ZOptional(w, u => StatisticsSchema(u, fields)))
  }

  function VideoKey(v: Value, fields: Fields): (r: Parsed<Option<TikHubVideo.Video>>)
    ensures Get(v, "video") == Undefined ==> r == Ok(None)
    ensures Get(v, "video") != Undefined ==> (r.Ok? <==> VideoSchema(Get(v, "video"), fields).Ok?)
    ensures Get(v, "video") != Undefined && r.Ok? ==> r.value == Some(VideoSchema(Get(v, "video"), fields).value)
  {
    Field(v, "video", w => ZOptional(w, u => VideoSchema(u, fields)))
  }

  /** Every property of a detail object passes its schema. */
  predicate DetailFieldsOk(v: Value, fields: Fields, fraction: real -> string) {
    && StringKey(v, "aweme_id", fields, fraction).Ok? && StringKey(v, "aweme_id_str", fields, fraction).Ok?
    && StringKey(v, "desc", fields, fraction).Ok? && NumberKey(v, "create_time", fields).Ok? && NumberKey(v, "duration", fields).Ok?
    && TopicsKey(v, fields, fraction).Ok? && AuthorKey(v, fields, fraction).Ok? && StatisticsKey(v, fields).Ok?
    && VideoKey(v, fields).Ok?
  }

  /** `tikhubDetailSchema`: an object every property of which passes its schema, read
      property by property into the record; the music fields of the record stay
      absent. */
  function DetailSchema(v: Value, fields: Fields, fraction: real -> string): (r: Parsed<TikHubVideo.Detail>)
    ensures r.Ok? <==> v.Obj? && DetailFieldsOk(v, fields, fraction)
    ensures r.Ok? ==> r.value == TikHubVideo.Detail(StringKey(v, "aweme_id", fields, fraction).value, StringKey(v, "aweme_id_str", fields, fraction).value,
                                                    StringKey(v, "desc", fields, fraction).value, NormalizeNumberValue(Get(v, "create_time")),
                                                    NormalizeNumberValue(Get(v, "duration")), TopicsKey(v, fields, fraction).value,
                                                    AuthorKey(v, fields, fraction).value, StatisticsKey(v, fields).value, None, None,
                                                    VideoKey(v, fields).value)
    ensures r.Ok? ==> StringFieldOf(Get(v, "desc"), fields, fraction) == Ok(r.value.desc)
  {
    var _ :- ZObject(v);
    var awemeId :- StringKey(v, "aweme_id", fields, fraction);
    var awemeIdStr :- StringKey(v, "aweme_id_str", fields, fraction);
    var desc :- StringKey(v, "desc", fields, fraction);
    var createTime :- NumberKey(v, "create_time", fields);
    var duration :- NumberKey(v, "duration", fields);
    var chaList :- TopicsKey(v, fields, fraction);
    var author :- AuthorKey(v, fields, fraction);
    var statistics :- StatisticsKey(v, fields);
    var video :- VideoKey(v, fields);
    Ok(TikHubVideo.Detail(awemeId, awemeIdStr, desc, createTime, duration, chaList, author, statistics, None, None, video))
  }

  function DetailsKey(d: Value, fields: Fields, fraction: real -> string): (r: Parsed<Option<seq<TikHubVideo.Detail>>>)
    ensures Get(d, "aweme_details") == Undefined ==> r == Ok(None)
    ensures Get(d, "aweme_details") != Undefined ==> (r.Ok? <==> ZArray(Get(d, "aweme_details"), x => DetailSchema(x, fields, fraction)).Ok?)
    ensures Get(d, "aweme_details") != Undefined && r.Ok? ==> r.value == Some(ZArray(Get(d, "aweme_details"), x => DetailSchema(x, fields, fraction)).value)
  {
    Field(d, "aweme_details", w => ZOptional(w, u => ZArray(u, x => DetailSchema(x, fields, fraction))))
  }

  function DetailKey(d: Value, fields: Fields, fraction: real -> string): (r: Parsed<Option<TikHubVideo.Detail>>)
    ensures Get(d, "aweme_detail") == Undefined ==> r == Ok(None)
    ensures Get(d, "aweme_detail") != Undefined ==> (r.Ok? <==> DetailSchema(Get(d, "aweme_detail"), fields, fraction).Ok?)
    ensures Get(d, "aweme_detail") != Undefined && r.Ok? ==> r.value == Some(DetailSchema(Get(d, "aweme_detail"), fields, fraction).value)
  {
    Field(d, "aweme_detail", w => ZOptional(w, u => DetailSchema(u, fields, fraction)))
  }

  /** `tikhubResponseSchema`: the payload must be an object whose `data` is an object
      whose `aweme_details`, `aweme_detail` and `video` each pass their schema. */
  function ResponseSchema(v: Value, fields: Fields, fraction: real -> string): (r: Parsed<TikHubVideo.Data>)
    ensures var d := Get(v, "data");
            r.Ok? <==> v.Obj? && d.Obj? && DetailsKey(d, fields, fraction).Ok? && DetailKey(d, fields, fraction).Ok? && VideoKey(d, fields).Ok?
    ensures var d := Get(v, "data");
            r.Ok? ==> r.value == TikHubVideo.Data(DetailsKey(d, fields, fraction).value, DetailKey(d, fields, fraction).value, VideoKey(d, fields).value)
  {
    var _ :- ZObject(v);
    var d :- Field(v, "data", ZObject);
    var details :- Under(Key("data"), DetailsKey(d, fields, fraction));
    var detail :- Under(Key("data"), DetailKey(d, fields, fraction));
    var video :- Under(Key("data"), VideoKey(d, fields));
    Ok(TikHubVideo.Data(details, detail, video))
  }

  /** What the extractor borrows from its host: `String.prototype.toLowerCase`, the
      shortest round-trip formatting of non-integral numbers, and the value
      `crypto.randomUUID()` returns for this call. */
  datatype Host = Host(toLower: string -> string, fraction: real -> string, fallbackId: string)

  /** `TikHubVideoInfo` of the older extractor: no audio link, and always an id. */
  datatype VideoInfo = VideoInfo(awemeId: string, description: Option<string>, durationMs: Option<int>,
                                 createdAt: Option<string>, hashtags: seq<string>, author: TikHubVideo.VideoAuthor,
                                 stats: TikHubVideo.VideoStats, thumbnailUrl: Option<string>, downloadUrl: string)

  /** `TikHubDownloadInfo`. */
  datatype DownloadInfo = DownloadInfo(awemeId: string, downloadUrl: string)

  /** `getFirstUrl`: the first entry of `url_list` that is not blank, trimmed; there is no
      `uri` fallback. */
  function FirstUrl(address: Option<TikHubVideo.Address>): (r: Option<string>)
    ensures r.Some? ==> r.value != [] && Trimmed(r.value)
    ensures r.None? <==> address.None? || forall i :: 0 <= i < |TikHubVideo.UrlList(address.value)| ==> AllWhiteSpace(TikHubVideo.UrlList(address.value)[i])
  {
    if address.None? then None else FirstNonBlank(TikHubVideo.UrlList(address.value))
  }

  /** Without a `uri`, both readings of an address agree; with a usable `uri` and a blank
      list only the newer one finds a link. */
  lemma {:induction false} FirstUrlAgreesWithoutUri(address: Option<TikHubVideo.Address>)
    ensures address.None? || address.value.uri.None? ==> FirstUrl(address) == TikHubVideo.FirstUrl(address)
    ensures address.Some? && FirstUrl(address).None? && TikHubVideo.HasNonBlankUri(address.value)
            ==> TikHubVideo.FirstUrl(address) == Some(Trim(address.value.uri.value))
  {
  }

  /** The watermark-free address first, then the download address, then the play address. */
  function DownloadUrl(video: Option<TikHubVideo.Video>): (r: Option<string>)
    ensures r.Some? ==> r.value != [] && Trimmed(r.value)
    ensures r.None? <==> FirstUrl(TikHubVideo.VideoAddress(video, TikHubVideo.NoWatermark)).None?
                         && FirstUrl(TikHubVideo.VideoAddress(video, TikHubVideo.Download)).None?
                         && FirstUrl(TikHubVideo.VideoAddress(video, TikHubVideo.Play)).None?
    ensures FirstUrl(TikHubVideo.VideoAddress(video, TikHubVideo.NoWatermark)).Some?
            ==> r == FirstUrl(TikHubVideo.VideoAddress(video, TikHubVideo.NoWatermark))
  {
    FirstUrl(TikHubVideo.VideoAddress(video, TikHubVideo.NoWatermark))
      .OrElse(FirstUrl(TikHubVideo.VideoAddress(video, TikHubVideo.Download)))
      .OrElse(FirstUrl(TikHubVideo.VideoAddress(video, TikHubVideo.Play)))
  }

  /** The original cover first, then the cover, then the dynamic cover. */
  function ThumbnailUrl(video: Option<TikHubVideo.Video>): (r: Option<string>)
    ensures r.Some? ==> r.value != [] && Trimmed(r.value)
    ensures var origin, cover, dynamic := FirstUrl(TikHubVideo.VideoAddress(video, TikHubVideo.OriginCover)),
                                          FirstUrl(TikHubVideo.VideoAddress(video, TikHubVideo.Cover)),
                                          FirstUrl(TikHubVideo.VideoAddress(video, TikHubVideo.DynamicCover));
            && (origin.Some? ==> r == origin)
            && (origin.None? && cover.Some? ==> r == cover)
            && (origin.None? && cover.None? ==> r == dynamic)
            && (r.None? <==> origin.None? && cover.None? && dynamic.None?)
  {
    FirstUrl(TikHubVideo.VideoAddress(video, TikHubVideo.OriginCover))
      .OrElse(FirstUrl(TikHubVideo.VideoAddress(video, TikHubVideo.Cover)))
      .OrElse(FirstUrl(TikHubVideo.VideoAddress(video, TikHubVideo.DynamicCover)))
  }

  /** Every address of the video lacks a `uri`, as this schema's records always do. */
  predicate NoUris(video: Option<TikHubVideo.Video>) {
    forall kind: TikHubVideo.AddressKind :: TikHubVideo.VideoAddress(video, kind).None? || TikHubVideo.VideoAddress(video, kind).value.uri.None?
  }

  /** On such a video the download link is the one the newer extractor picks. */
  lemma {:induction false} DownloadUrlAgrees(video: Option<TikHubVideo.Video>)
    requires NoUris(video)
    ensures DownloadUrl(video) == TikHubVideo.DownloadUrl(video)
  {
    FirstUrlAgreesWithoutUri(TikHubVideo.VideoAddress(video, TikHubVideo.NoWatermark));
    FirstUrlAgreesWithoutUri(TikHubVideo.VideoAddress(video, TikHubVideo.Download));
    FirstUrlAgreesWithoutUri(TikHubVideo.VideoAddress(video, TikHubVideo.Play));
  }

  /** `[A-Za-z0-9_]`. */
  predicate AsciiTagChar(c: char) {
    c == '_' || 'A' <= c <= 'Z' || 'a' <= c <= 'z' || '0' <= c <= '9'
  }

  /** `aweme_id ?? aweme_id_str ?? crypto.randomUUID()`. */
  function AwemeId(detail: Option<TikHubVideo.Detail>, fallbackId: string): (r: string)
    ensures TikHubVideo.AwemeId(detail).Some? ==> r == TikHubVideo.AwemeId(detail).value
    ensures TikHubVideo.AwemeId(detail).None? ==> r == fallbackId
  {
    if detail.Some? then detail.value.awemeId.OrElse(detail.value.awemeIdStr).OrElse(Some(fallbackId)).value
    else fallbackId
  }

  /** The description's ASCII tags, normalised. */
  function DescriptionHashtags(description: Option<string>, lower: string -> string): (r: seq<string>)
    ensures description.None? ==> r == []
    ensures description.Some?
            ==> var starts := TagStarts(description.value, 0, AsciiTagChar);
                |r| == |starts|
                && forall k :: 0 <= k < |r| ==> r[k] == NormalizeHashtag(TagText(description.value, starts[k], AsciiTagChar), lower)
  {
    if description.None? then []
    else TikHubVideo.NormalizeAll(DescriptionTags(description.value, AsciiTagChar), lower)
  }

  /** The topics first, then the description's tags, each value once. */
  function Hashtags(detail: Option<TikHubVideo.Detail>, lower: string -> string): (r: seq<string>)
    ensures NoDuplicates(r)
    ensures forall x :: x in r <==> x in TopicHashtags(detail, lower) || x in DescriptionHashtags(TikHubVideo.Description(detail), lower)
  {
    Dedupe(TopicHashtags(detail, lower) + DescriptionHashtags(TikHubVideo.Description(detail), lower))
  }

  /** The `cha_list` names, normalised. */
  function TopicHashtags(detail: Option<TikHubVideo.Detail>, lower: string -> string): (r: seq<string>)
    ensures detail.None? || detail.value.chaList.None? ==> r == []
    ensures detail.Some? && detail.value.chaList.Some?
            ==> var names := TikHubVideo.TopicNames(detail.value.chaList.value);
                |r| == |names| && forall k :: 0 <= k < |r| ==> r[k] == NormalizeHashtag(names[k], lower)
    ensures forall newer: TikHubVideo.Host {:trigger TikHubVideo.TopicHashtags(detail, newer)} :: newer.toLower == lower ==> r == TikHubVideo.TopicHashtags(detail, newer)
  {
    if detail.Some? && detail.value.chaList.Some? then TikHubVideo.NormalizeAll(TikHubVideo.TopicNames(detail.value.chaList.value), lower)
    else []
  }

  /** The topics lead: the hashtags start with the de-duplicated topic names. */
  lemma {:induction false} TopicsLead(detail: Option<TikHubVideo.Detail>, lower: string -> string)
    ensures var topics := Dedupe(TopicHashtags(detail, lower));
            |topics| <= |Hashtags(detail, lower)| && Hashtags(detail, lower)[..|topics|] == topics
  {
    DedupeKeepsPrefix(TopicHashtags(detail, lower), DescriptionHashtags(TikHubVideo.Description(detail), lower));
  }

  /** What `extractTikHubVideoInfo` makes of a payload that matched the schema. */
  function ExtractFromData(data: TikHubVideo.Data, host: Host): (r: Result<VideoInfo, AppError>)
    ensures r.Err? <==> DownloadUrl(TikHubVideo.SelectedVideo(data)).None?
    ensures r.Err? ==> r.error == UpstreamResponseError(TikHubVideo.Service, TikHubVideo.NoDownloadUrlMessage)
    ensures r.Ok? ==> r.value.downloadUrl == DownloadUrl(TikHubVideo.SelectedVideo(data)).value && r.value.downloadUrl != []
                      && Trimmed(r.value.downloadUrl) && r.value.awemeId == AwemeId(TikHubVideo.FirstDetail(data), host.fallbackId)
                      && NoDuplicates(r.value.hashtags)
  {
    var detail := TikHubVideo.FirstDetail(data);
    var video := TikHubVideo.SelectedVideo(data);
    if DownloadUrl(video).None? then Err(UpstreamResponseError(TikHubVideo.Service, TikHubVideo.NoDownloadUrlMessage))
    else Ok(VideoInfo(AwemeId(detail, host.fallbackId), TikHubVideo.Description(detail), TikHubVideo.DurationMs(video, detail),
                      UnixTimestampToIso(TikHubVideo.NumberOf(TikHubVideo.CreateTime(detail))), Hashtags(detail, host.toLower),
                      TikHubVideo.AuthorOf(detail), TikHubVideo.StatsOf(detail), ThumbnailUrl(video), DownloadUrl(video).value))
  }

  /** The record is assembled field by field from the selected detail and video: the
      description, the duration (the video's before the detail's), the creation time,
      the merged hashtags, the author, the counts, the cover and the link. */
  lemma {:induction false} ExtractedVideoInfo(data: TikHubVideo.Data, host: Host, info: VideoInfo)
    requires var detail, video := TikHubVideo.FirstDetail(data), TikHubVideo.SelectedVideo(data);
             && DownloadUrl(video) == Some(info.downloadUrl) && AwemeId(detail, host.fallbackId) == info.awemeId
             && TikHubVideo.Description(detail) == info.description && TikHubVideo.DurationMs(video, detail) == info.durationMs
             && UnixTimestampToIso(TikHubVideo.NumberOf(TikHubVideo.CreateTime(detail))) == info.createdAt
             && Hashtags(detail, host.toLower) == info.hashtags
             && TikHubVideo.AuthorOf(detail) == info.author && TikHubVideo.StatsOf(detail) == info.stats
             && ThumbnailUrl(video) == info.thumbnailUrl
    ensures ExtractFromData(data, host) == Ok(info)
  {
  }

  /** `extractTikHubVideoInfo`, with the field schemas read as `fields` says. */
  function ExtractTikHubVideoInfo(payload: Value, fields: Fields, host: Host): (r: Result<VideoInfo, AppError>)
    ensures ResponseSchema(payload, fields, host.fraction).Err? ==> r == Err(UpstreamResponseError(TikHubVideo.Service, TikHubVideo.SchemaMismatchMessage))
    ensures ResponseSchema(payload, fields, host.fraction).Ok? ==> r == ExtractFromData(ResponseSchema(payload, fields, host.fraction).value, host)
  {
    match ResponseSchema(payload, fields, host.fraction)
    case Err(_) => Err(UpstreamResponseError(TikHubVideo.Service, TikHubVideo.SchemaMismatchMessage))
    case Ok(data) => ExtractFromData(data, host)
  }

  /** `extractTikHubDownloadInfo`: the id and link of the video info, its errors passed on. */
  function ExtractTikHubDownloadInfo(payload: Value, fields: Fields, host: Host): (r: Result<DownloadInfo, AppError>)
    ensures r.Ok? <==> ExtractTikHubVideoInfo(payload, fields, host).Ok?
    ensures r.Err? ==> r.error == ExtractTikHubVideoInfo(payload, fields, host).error
    ensures r.Ok? ==> r.value.awemeId == ExtractTikHubVideoInfo(payload, fields, host).value.awemeId
                      && r.value.downloadUrl == ExtractTikHubVideoInfo(payload, fields, host).value.downloadUrl
  {
    match ExtractTikHubVideoInfo(payload, fields, host)
    case Err(e) => Err(e)
    case Ok(info) => Ok(DownloadInfo(info.awemeId, info.downloadUrl))
  }

  /** Once a link is found the older extractor never fails: it takes the id the newer
      one would, and the random one where the newer one reports a missing id. */
  lemma {:induction false} ExtractorsAgreeOnLink(data: TikHubVideo.Data, newer: TikHubVideo.Host, host: Host)
    requires NoUris(TikHubVideo.SelectedVideo(data))
    ensures DownloadUrl(TikHubVideo.SelectedVideo(data)).None? <==> TikHubVideo.DownloadUrl(TikHubVideo.SelectedVideo(data)).None?
    ensures TikHubVideo.ExtractFromData(data, newer).Ok?
            ==> (&& ExtractFromData(data, host).Ok?
                 && ExtractFromData(data, host).value.downloadUrl == TikHubVideo.ExtractFromData(data, newer).value.downloadUrl
                 && ExtractFromData(data, host).value.awemeId == TikHubVideo.ExtractFromData(data, newer).value.awemeId)
    ensures TikHubVideo.ExtractFromData(data, newer) == Err(UpstreamResponseError(TikHubVideo.Service, TikHubVideo.NoVideoIdMessage))
            ==> ExtractFromData(data, host).Ok? && ExtractFromData(data, host).value.awemeId == host.fallbackId
  {
    DownloadUrlAgrees(TikHubVideo.SelectedVideo(data));
  }

  /** A `null` count makes the whole payload a schema mismatch as written; corrected, the
      count is only absent. */
  lemma {:induction false} NullCountFailsPayload(payload: Value, host: Host)
    requires payload == Obj(map["data" := Obj(map["aweme_detail" := Obj(map["statistics" := Obj(map["play_count" := Null])])])])
    ensures ExtractTikHubVideoInfo(payload, AsWritten, host) == Err(UpstreamResponseError(TikHubVideo.Service, TikHubVideo.SchemaMismatchMessage))
    ensures ResponseSchema(payload, Corrected, host.fraction).Ok?
  {
    var stats := Obj(map["play_count" := Null]);
    NullCountStatistics(stats);
    var detail := Obj(map["statistics" := stats]);
    DetailOfStatistics(detail, stats, host.fraction);
    var d := Obj(map["aweme_detail" := detail]);
    OtherKeys("aweme_detail", detail, "aweme_details", "video", "video");
    OtherKeys("data", d, "aweme_detail", "video", "video");
    ResponseOfDetail(payload, d, detail, AsWritten, host.fraction);
    ResponseOfDetail(payload, d, detail, Corrected, host.fraction);
  }

  /** A payload whose `data` holds nothing but `aweme_detail` passes exactly when that
      detail does. */
  lemma {:induction false} ResponseOfDetail(payload: Value, d: Value, detail: Value, fields: Fields, fraction: real -> string)
    requires payload.Obj? && Get(payload, "data") == d && d.Obj?
    requires Get(d, "aweme_detail") == detail && detail != Undefined && Get(d, "aweme_details") == Undefined && Get(d, "video") == Undefined
    ensures ResponseSchema(payload, fields, fraction).Ok? <==> DetailSchema(detail, fields, fraction).Ok?
  {
  }

  /** Statistics holding a `null` play count fail as written and pass corrected. */
  lemma {:induction false} NullCountStatistics(stats: Value)
    requires stats == Obj(map["play_count" := Null])
    ensures StatisticsSchema(stats, AsWritten).Err? && StatisticsSchema(stats, Corrected).Ok?
  {
    OtherKeys("play_count", Null, "comment_count", "share_count", "share_count");
    assert Get(stats, "digg_count") == Undefined;
  }

  /** A detail record holding nothing but `statistics` passes exactly when its statistics
      do. */
  lemma {:induction false} DetailOfStatistics(detail: Value, stats: Value, fraction: real -> string)
    requires detail == Obj(map["statistics" := stats])
    requires stats != Undefined
    ensures forall fields :: DetailSchema(detail, fields, fraction).Ok? <==> StatisticsSchema(stats, fields).Ok?
  {
    OtherKeys("statistics", stats, "aweme_id", "aweme_id_str", "desc");
    OtherKeys("statistics", stats, "create_time", "duration", "cha_list");
    OtherKeys("statistics", stats, "author", "video", "video");
  }

  /** A `null` description reads as the text `"undefined"` as written; corrected, it is
      absent. */
  lemma {:induction false} NullDescriptionReadsUndefined(detail: Value, fraction: real -> string)
    requires detail == Obj(map["desc" := Null])
    ensures DetailSchema(detail, AsWritten, fraction) == Ok(TikHubVideo.Detail(None, None, Some(UndefinedText), None, None, None, None, None, None, None, None))
    ensures DetailSchema(detail, Corrected, fraction) == Ok(TikHubVideo.Detail(None, None, None, None, None, None, None, None, None, None, None))
  {
    NullStringField(fraction);
    DetailOfDescription(detail, Null, AsWritten, fraction);
    DetailOfDescription(detail, Null, Corrected, fraction);
  }

  lemma {:induction false} NullStringField(fraction: real -> string)
    ensures StringFieldOf(Null, AsWritten, fraction) == Ok(Some(UndefinedText))
    ensures StringFieldOf(Null, Corrected, fraction) == Ok(None)
  {
    StringFieldCorrection(Null, fraction);
  }

  /** A detail record holding nothing but `desc` carries what the string field schema
      makes of it. */
  lemma {:induction false} DetailOfDescription(detail: Value, desc: Value, fields: Fields, fraction: real -> string)
    requires detail == Obj(map["desc" := desc]) && StringFieldOf(desc, fields, fraction).Ok?
    ensures DetailSchema(detail, fields, fraction)
            == Ok(TikHubVideo.Detail(None, None, StringFieldOf(desc, fields, fraction).value, None, None, None, None, None, None, None, None))
  {
    OtherKeys("desc", desc, "aweme_id", "aweme_id_str", "statistics");
    OtherKeys("desc", desc, "create_time", "duration", "cha_list");
    OtherKeys("desc", desc, "author", "video", "video");
  }

  /** Two keys told apart by their length or their first letter. */
  predicate Distinct(a: string, b: string) {
    |a| != |b| || (a != [] && b != [] && a[0] != b[0])
  }

  /** In a one-property object every other property is absent. */
  lemma {:induction false} OtherKeys(key: string, x: Value, k1: string, k2: string, k3: string)
    requires Distinct(k1, key) && Distinct(k2, key) && Distinct(k3, key)
    ensures var v := Obj(map[key := x]);
            Get(v, key) == x && Get(v, k1) == Undefined && Get(v, k2) == Undefined && Get(v, k3) == Undefined
  {
  }

  /** A blank description reads as `"undefined"` too as written. */
  lemma {:induction false} BlankStringReadsUndefined(blank: string, fraction: real -> string)
    requires blank != [] && AllWhiteSpace(blank)
    ensures StringFieldAsWritten(Str(blank), fraction) == Ok(Some(UndefinedText))
    ensures StringField(Str(blank), fraction) == Ok(None)
  {
  }
}
