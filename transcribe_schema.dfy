/** The body of `POST /api/transcribe`: an `audioUrl`, trimmed, that parses as a URL with
    an `http` or `https` protocol; other keys are dropped. */
module TranscribeSchema {
  import opened Wrappers
  import opened JsText
  import opened JsValue
  import opened JsUrl
  import opened Zod
  import opened SharedString

  /** `audioUrlSchema`. */
  function AudioUrlSchema(v: Value, parse: UrlParser): (r: Parsed<string>)
    ensures r.Ok? <==> v.Str? && parse(Trim(v.s)).Some? && IsHttpScheme(Scheme(parse(Trim(v.s)).value))
    ensures r.Ok? ==> r.value == Trim(v.s)
    ensures v.Str? && r.Err? ==> r.error == Issue([], InvalidFormat("URL"), "Invalid URL")
  {
    var t :- TrimmedStringSchema(v);
    TrimIdempotent(v.s);
    ZUrl(t, parse, _ => true, IsHttpScheme)
  }

  datatype TranscribeAudioRequest = TranscribeAudioRequest(audioUrl: string)

  /** `transcribeAudioRequestSchema`. */
  function TranscribeAudioRequestSchema(v: Value, parse: UrlParser): (r: Parsed<TranscribeAudioRequest>)
    ensures r.Ok? <==> v.Obj? && AudioUrlSchema(Get(v, "audioUrl"), parse).Ok?
    ensures r.Ok? ==> r.value.audioUrl == Trim(Get(v, "audioUrl").s)
    ensures v.Obj? && Get(v, "audioUrl").Str? && r.Err? ==> r.error == Issue([Key("audioUrl")], InvalidFormat("URL"), "Invalid URL")
  {
    var _ :- ZObject(v);
    var u :- Field(v, "audioUrl", w => AudioUrlSchema(w, parse));
    Ok(TranscribeAudioRequest(u))
  }

  /** `.strip()`: other keys make no difference. */
  lemma {:induction false} UnknownKeysStripped(props: map<string, Value>, key: string, x: Value, parse: UrlParser)
    requires key != "audioUrl"
    ensures TranscribeAudioRequestSchema(Obj(props[key := x]), parse) == TranscribeAudioRequestSchema(Obj(props), parse)
  {
    assert Get(Obj(props[key := x]), "audioUrl") == Get(Obj(props), "audioUrl");
  }

  /** A string that is not a URL is refused under `audioUrl`. */
  lemma {:induction false} NotAUrlRejected(parse: UrlParser)
    requires parse("not-a-url") == None
    ensures TranscribeAudioRequestSchema(Obj(map["audioUrl" := Str("not-a-url")]), parse)
            == Err(Issue([Key("audioUrl")], InvalidFormat("URL"), "Invalid URL"))
  {
    var v := Obj(map["audioUrl" := Str("not-a-url")]);
    assert Trimmed("not-a-url");
    TrimOfTrimmed("not-a-url");
    assert Get(v, "audioUrl") == Str("not-a-url");
    assert !AudioUrlSchema(Get(v, "audioUrl"), parse).Ok?;
    assert TranscribeAudioRequestSchema(v, parse).Err?;
  }

  /** Any http(s) link is accepted, whatever its host, and comes back trimmed. */
  lemma {:induction false} AnyHttpsHostAccepted(w1: string, url: string, w2: string, host: string, parse: UrlParser)
    requires AllWhiteSpace(w1) && AllWhiteSpace(w2) && Trimmed(url) && url != []
    requires parse(url) == Some(Url("https:", host))
    ensures TranscribeAudioRequestSchema(Obj(map["audioUrl" := Str(w1 + url + w2)]), parse)
            == Ok(TranscribeAudioRequest(url))
  {
    TrimIgnoresPadding(w1, url, w2);
    HttpSchemes();
    assert Scheme(Url("https:", host)) == Scheme(Url("https:", ""));
    AudioRequestOf(w1 + url + w2, url, parse);
  }

  lemma {:induction false} AudioRequestOf(s: string, url: string, parse: UrlParser)
    requires Trim(s) == url && parse(url).Some? && IsHttpScheme(Scheme(parse(url).value))
    ensures TranscribeAudioRequestSchema(Obj(map["audioUrl" := Str(s)]), parse) == Ok(TranscribeAudioRequest(url))
  {
    var v := Obj(map["audioUrl" := Str(s)]);
    assert Get(v, "audioUrl") == Str(s);
    assert AudioUrlSchema(Str(s), parse).Ok?;
    var r := TranscribeAudioRequestSchema(v, parse);
    assert r.Ok? && r.value.audioUrl == url;
  }
}
