/** The query of `GET /api/tiktok/download`: a `share_url` that parses as a URL whose
    host is `tiktok.com` or one of its subdomains. */
module TikTokSchema {
  import opened Wrappers
  import opened JsText
  import opened JsValue
  import opened JsUrl
  import opened Zod

  /** The host rule on a lower-cased hostname. */
  predicate IsTikTokHostname(h: string) {
    h == "tiktok.com" || EndsWith(h, ".tiktok.com")
  }

  /** `isTikTokHost`: false, never an exception, when the string is not a URL. Hostnames
      from the URL parser are ASCII, so lower-casing them is ASCII lower-casing. */
  function IsTikTokHost(value: string, parse: UrlParser): (b: bool)
    ensures b ==> parse(value).Some?
  {
    match parse(value)
    case None => false
    case Some(u) => IsTikTokHostname(LowerAscii(u.hostname))
  }

  /** The host rule accepts `tiktok.com` and every name ending in `.tiktok.com`, and
      nothing else. */
  lemma {:induction false} TikTokHostnames(h: string)
    ensures IsTikTokHostname(h) <==> h == "tiktok.com" || exists sub :: h == sub + ".tiktok.com"
  {
    if EndsWith(h, ".tiktok.com") {
      assert h == h[..|h| - 11] + ".tiktok.com";
    }
    forall sub | h == sub + ".tiktok.com"
      ensures EndsWith(h, ".tiktok.com")
    {
      assert h[|h| - 11..] == ".tiktok.com";
    }
  }

  /** A look-alike that merely ends in `tiktok.com` is refused: the suffix needs its dot. */
  lemma {:induction false} LookAlikeHostsRejected()
    ensures !IsTikTokHostname("eviltiktok.com")
    ensures !IsTikTokHostname("tiktok.com.evil.com")
    ensures IsTikTokHostname("www.tiktok.com") && IsTikTokHostname("vm.tiktok.com")
  {
    assert "eviltiktok.com"[3] == 'l';
    assert "tiktok.com.evil.com"[8] == 'o';
    assert "www.tiktok.com"[3..] == ".tiktok.com";
    assert "vm.tiktok.com"[2..] == ".tiktok.com";
  }

  datatype TikTokDownloadQuery = TikTokDownloadQuery(shareUrl: string)

  const NotTikTokMessage := "share_url must be a TikTok URL"

  /** `z.url().refine(isTikTokHost, ...)`: the refinement sees the trimmed string that
      `z.url()` passes on. */
  function ShareUrl(v: Value, parse: UrlParser): (r: Parsed<string>)
    ensures r.Ok? <==> v.Str? && IsTikTokHost(Trim(v.s), parse)
    ensures r.Ok? ==> r.value == Trim(v.s)
  {
    var s :- ZString(v);
    var u :- ZUrl(s, parse, _ => true, _ => true);
    if IsTikTokHost(u, parse) then Ok(u) else FailWith(Custom, NotTikTokMessage)
  }

  /** `tiktokDownloadQuerySchema`. */
  function TikTokDownloadQuerySchema(v: Value, parse: UrlParser): (r: Parsed<TikTokDownloadQuery>)
    ensures r.Ok? <==> v.Obj? && Get(v, "share_url").Str? && IsTikTokHost(Trim(Get(v, "share_url").s), parse)
    ensures r.Ok? ==> r.value.shareUrl == Trim(Get(v, "share_url").s)
    ensures v.Obj? && Get(v, "share_url").Str? && parse(Trim(Get(v, "share_url").s)).Some? && r.Err?
            ==> r.error == Issue([Key("share_url")], Custom, NotTikTokMessage)
    ensures v.Obj? && Get(v, "share_url").Str? && parse(Trim(Get(v, "share_url").s)).None?
            ==> r.Err? && r.error == Issue([Key("share_url")], InvalidFormat("URL"), "Invalid URL")
  {
    var _ :- ZObject(v);
    var s :- Field(v, "share_url", w => ShareUrl(w, parse));
    Ok(TikTokDownloadQuery(s))
  }

  /** A link to another site is refused with the TikTok message. */
  lemma {:induction false} OtherSiteRejected(parse: UrlParser)
    requires parse("https://example.com/video/123") == Some(Url("https:", "example.com"))
    ensures TikTokDownloadQuerySchema(Obj(map["share_url" := Str("https://example.com/video/123")]), parse)
            == Err(Issue([Key("share_url")], Custom, NotTikTokMessage))
  {
    var url := "https://example.com/video/123";
    assert Trimmed(url) by {
      assert url[0] == 'h' && url[|url| - 1] == '3';
    }
    TrimOfTrimmed(url);
    assert LowerAscii("example.com") == "example.com";
    assert "example.com"[0] != '.';
    assert !IsTikTokHost(url, parse);
    var v := Obj(map["share_url" := Str(url)]);
    assert Get(v, "share_url") == Str(url);
    assert TikTokDownloadQuerySchema(v, parse).Err?;
  }
}

/** The query of `GET /api/tiktok/info`: a trimmed `share_url` with an `http` or `https`
    protocol and a host `tiktok.com` or under it, letters compared without case. */
module TikTokVideoSchema {
  import opened Wrappers
  import opened JsText
  import opened JsValue
  import opened JsUrl
  import opened Zod
  import opened SharedString
  import TikTokSchema

  /** `/(^|\.)tiktok\.com$/i` on the hostname. */
  predicate MatchesHostPattern(h: string) {
    |h| >= 10 && LowerAscii(h[|h| - 10..]) == "tiktok.com" && (|h| == 10 || h[|h| - 11] == '.')
  }

  /** The case-insensitive pattern and the lower-casing host rule accept the same hosts. */
  lemma {:induction false} HostRulesAgree(h: string)
    ensures MatchesHostPattern(h) <==> TikTokSchema.IsTikTokHostname(LowerAscii(h))
  {
    var l := LowerAscii(h);
    if |h| >= 10 {
      assert l[|h| - 10..] == LowerAscii(h[|h| - 10..]);
    }
    if |h| == 10 {
      assert l == l[|h| - 10..];
    }
    if |h| >= 11 {
      assert l[|h| - 11..] == [l[|h| - 11]] + l[|h| - 10..];
      assert l[|h| - 11] == '.' <==> h[|h| - 11] == '.';
    }
    assert |"tiktok.com"| == 10 && ".tiktok.com" == ['.'] + "tiktok.com";
  }

  /** `tiktokShareUrlSchema`. */
  function ShareUrlSchema(v: Value, parse: UrlParser): (r: Parsed<string>)
    ensures r.Ok? <==> v.Str? && parse(Trim(v.s)).Some? && MatchesHostPattern(parse(Trim(v.s)).value.hostname)
                       && IsHttpScheme(Scheme(parse(Trim(v.s)).value))
    ensures r.Ok? ==> r.value == Trim(v.s)
  {
    var t :- TrimmedStringSchema(v);
    TrimIdempotent(v.s);
    ZUrl(t, parse, MatchesHostPattern, IsHttpScheme)
  }

  datatype TikTokShareUrlQuery = TikTokShareUrlQuery(shareUrl: string)

  /** `tiktokShareUrlQuerySchema`. */
  function ShareUrlQuerySchema(v: Value, parse: UrlParser): (r: Parsed<TikTokShareUrlQuery>)
    ensures r.Ok? <==> v.Obj? && ShareUrlSchema(Get(v, "share_url"), parse).Ok?
    ensures r.Ok? ==> r.value.shareUrl == Trim(Get(v, "share_url").s)
  {
    var _ :- ZObject(v);
    var s :- Field(v, "share_url", w => ShareUrlSchema(w, parse));
    Ok(TikTokShareUrlQuery(s))
  }

  /** White space around the link makes no difference. */
  lemma {:induction false} PaddingIgnored(w1: string, s: string, w2: string, parse: UrlParser)
    requires AllWhiteSpace(w1) && AllWhiteSpace(w2) && Trimmed(s) && s != []
    ensures ShareUrlSchema(Str(w1 + s + w2), parse) == ShareUrlSchema(Str(s), parse)
  {
    TrimIgnoresPadding(w1, s, w2);
    TrimOfTrimmed(s);
  }

  /** On a trimmed http(s) link the info query and the download query accept the same
      links. */
  lemma {:induction false} AgreesWithDownloadQuery(url: string, parse: UrlParser)
    requires Trimmed(url) && parse(url).Some? && IsHttpScheme(Scheme(parse(url).value))
    ensures var q := Obj(map["share_url" := Str(url)]);
            ShareUrlQuerySchema(q, parse).Ok? <==> TikTokSchema.TikTokDownloadQuerySchema(q, parse).Ok?
  {
    TrimOfTrimmed(url);
    HostRulesAgree(parse(url).value.hostname);
    var q := Obj(map["share_url" := Str(url)]);
    assert Get(q, "share_url") == Str(url);
  }

  /** A TikTok host is not enough: the protocol must be http or https. */
  lemma {:induction false} OtherProtocolRejected(url: string, parse: UrlParser)
    requires Trimmed(url) && parse(url) == Some(Url("ftp:", "www.tiktok.com"))
    ensures ShareUrlSchema(Str(url), parse) == Err(Issue([], InvalidFormat("URL"), "Invalid URL"))
    ensures TikTokSchema.TikTokDownloadQuerySchema(Obj(map["share_url" := Str(url)]), parse).Ok?
  {
    TrimOfTrimmed(url);
    assert "ftp:"[..3] == "ftp";
    assert "www.tiktok.com"[3..] == ".tiktok.com";
    assert LowerAscii("www.tiktok.com") == "www.tiktok.com";
    assert Get(Obj(map["share_url" := Str(url)]), "share_url") == Str(url);
  }
}

/** The query of `GET /api/tiktok/profile`: a username, trimmed, with one leading '@'
    removed, of 1..64 characters from `[A-Za-z0-9._]`. */
module TikTokProfileSchema {
  import opened Wrappers
  import opened JsText
  import opened JsValue
  import opened Zod
  import opened SharedString

  const MaxUsernameLength: nat := 64
  const EmptyMessage := "username cannot be empty"
  const TooLongMessage := "username must be at most 64 characters"
  const CharsetMessage := "username must contain only letters, numbers, '.' or '_'"

  /** `value.replace(/^@/, "")`. */
  function StripLeadingAt(s: string): (r: string)
    ensures s != [] && s[0] == '@' ==> r == s[1..]
    ensures s == [] || s[0] != '@' ==> r == s
  {
    if s != [] && s[0] == '@' then s[1..] else s
  }

  predicate IsUsernameChar(c: char) {
    IsAsciiLetter(c) || IsDigit(c) || c == '.' || c == '_'
  }

  predicate IsUsername(u: string) {
    1 <= |u| <= MaxUsernameLength && forall i :: 0 <= i < |u| ==> IsUsernameChar(u[i])
  }

  lemma {:induction false} UsernameCharsAreBmp(u: string)
    ensures (forall i :: 0 <= i < |u| ==> IsUsernameChar(u[i])) ==> Utf16Length(u) == |u|
  {
    if forall i :: 0 <= i < |u| ==> IsUsernameChar(u[i]) {
      Utf16LengthOfBmp(u);
    }
  }

  /** `tiktokUsernameSchema`: trim, strip one '@', then the length bounds and the
      character set, in that order. */
  function UsernameSchema(v: Value): (r: Parsed<string>)
    ensures r.Ok? <==> v.Str? && IsUsername(StripLeadingAt(Trim(v.s)))
    ensures r.Ok? ==> r.value == StripLeadingAt(Trim(v.s))
    ensures v.Str? && StripLeadingAt(Trim(v.s)) == [] ==> r == FailWith(TooSmall("string", 1), EmptyMessage)
    ensures v.Str? && Utf16Length(StripLeadingAt(Trim(v.s))) > MaxUsernameLength
            ==> r == FailWith(TooBig("string", MaxUsernameLength), TooLongMessage)
  {
    var t :- TrimmedStringSchema(v);
    var u := StripLeadingAt(t);
    UsernameCharsAreBmp(u);
    if Utf16Length(u) < 1 then FailWith(TooSmall("string", 1), EmptyMessage)
    else if Utf16Length(u) > MaxUsernameLength then FailWith(TooBig("string", MaxUsernameLength), TooLongMessage)
    else if exists i :: 0 <= i < |u| && !IsUsernameChar(u[i]) then FailWith(InvalidPattern("^[A-Za-z0-9._]+$"), CharsetMessage)
    else Ok(u)
  }

  /** An accepted username has no '@' and is accepted again as itself. */
  lemma {:induction false} UsernameIdempotent(v: Value)
    requires UsernameSchema(v).Ok?
    ensures '@' !in UsernameSchema(v).value
    ensures UsernameSchema(Str(UsernameSchema(v).value)) == UsernameSchema(v)
  {
    var u := UsernameSchema(v).value;
    assert IsUsername(u);
    UsernameIsTrimmed(u);
    UsernameOf(Str(u), u);
  }

  /** A username is its own trimmed, '@'-free form. */
  lemma {:induction false} UsernameIsTrimmed(u: string)
    requires IsUsername(u)
    ensures '@' !in u && Trimmed(u)
    ensures Trim(u) == u && StripLeadingAt(u) == u
  {
    assert forall i :: 0 <= i < |u| ==> u[i] != '@' by {
      forall i | 0 <= i < |u| ensures u[i] != '@' { assert IsUsernameChar(u[i]); }
    }
    assert IsUsernameChar(u[0]) && IsUsernameChar(u[|u| - 1]);
    TrimOfTrimmed(u);
  }

  /** The leading '@' is optional: `@name` and `name` are the same username. */
  lemma {:induction false} LeadingAtOptional(u: string)
    requires IsUsername(u)
    ensures UsernameSchema(Str("@" + u)) == UsernameSchema(Str(u)) == Ok(u)
  {
    assert UsernameSchema(Str(u)) == Ok(u) by {
      UsernameIsTrimmed(u);
      UsernameOf(Str(u), u);
    }
    assert Trimmed(u) by {
      UsernameIsTrimmed(u);
    }
    AtPrefixStripped(u);
    UsernameOf(Str("@" + u), u);
  }

  lemma {:induction false} AtPrefixStripped(u: string)
    requires Trimmed(u) && u != []
    ensures StripLeadingAt(Trim("@" + u)) == u
  {
    var a := "@" + u;
    assert Trimmed(a) by {
      assert a[0] == '@' && a[|a| - 1] == u[|u| - 1];
    }
    TrimOfTrimmed(a);
    assert a[1..] == u;
  }

  lemma {:induction false} UsernameOf(v: Value, u: string)
    requires v.Str? && StripLeadingAt(Trim(v.s)) == u && IsUsername(u)
    ensures UsernameSchema(v) == Ok(u)
  {
    var r := UsernameSchema(v);
    assert r.Ok? && r.value == u;
  }

  /** `"@"` alone is empty once stripped. */
  lemma {:induction false} LoneAtRejected()
    ensures UsernameSchema(Str("@")) == FailWith(TooSmall("string", 1), EmptyMessage)
  {
    assert Trimmed("@");
    TrimOfTrimmed("@");
  }

  /** Only one '@' is stripped, so `"@@x"` fails the character set. */
  lemma {:induction false} DoubleAtRejected()
    ensures UsernameSchema(Str("@@x")) == FailWith(InvalidPattern("^[A-Za-z0-9._]+$"), CharsetMessage)
  {
    assert Trimmed("@@x");
    TrimOfTrimmed("@@x");
    assert StripLeadingAt("@@x") == "@x";
    assert !IsUsernameChar("@x"[0]);
  }

  datatype TikTokProfileQuery = TikTokProfileQuery(username: string)

  /** `tiktokProfileQuerySchema`. */
  function ProfileQuerySchema(v: Value): (r: Parsed<TikTokProfileQuery>)
    ensures r.Ok? <==> v.Obj? && UsernameSchema(Get(v, "username")).Ok?
    ensures r.Ok? ==> r.value.username == UsernameSchema(Get(v, "username")).value
    ensures v.Obj? && UsernameSchema(Get(v, "username")).Err? ==> r.Err? && r.error.path != [] && r.error.path[0] == Key("username")
  {
    var _ :- ZObject(v);
    var u :- Field(v, "username", UsernameSchema);
    Ok(TikTokProfileQuery(u))
  }

  /** The query has the one field `username`: other keys make no difference. */
  lemma {:induction false} ProfileQueryIgnoresUnknownKeys(props: map<string, Value>, key: string, x: Value)
    requires key != "username"
    ensures ProfileQuerySchema(Obj(props[key := x])) == ProfileQuerySchema(Obj(props))
  {
    assert Get(Obj(props[key := x]), "username") == Get(Obj(props), "username");
  }
}
