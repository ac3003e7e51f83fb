/** The body of `POST /api/posts`: a trimmed title of 1..300 characters, a trimmed body of
    1..50000 characters and an optional `published` flag; other keys are dropped.
    Lengths are JavaScript string lengths, in UTF-16 code units. */
module PostsSchema {
  import opened Wrappers
  import opened JsText
  import opened JsValue
  import opened Zod
  import opened SharedString

  const MaxTitleLength: nat := 300
  const MaxBodyLength: nat := 50000

  /** `trimmedStringSchema.pipe(z.string().min(1, ...).max(max, ...))` with the messages
      that name the field. */
  function BoundedText(v: Value, max: nat, empty: string, tooLong: string): (r: Parsed<string>)
    ensures r.Ok? <==> v.Str? && 1 <= Utf16Length(Trim(v.s)) <= max
    ensures r.Ok? ==> r.value == Trim(v.s)
    ensures v.Str? && Trim(v.s) == [] ==> r == FailWith(TooSmall("string", 1), empty)
    ensures v.Str? && Utf16Length(Trim(v.s)) > max ==> r == FailWith(TooBig("string", max), tooLong)
  {
    var t :- TrimmedStringSchema(v);
    if Utf16Length(t) < 1 then FailWith(TooSmall("string", 1), empty)
    else if Utf16Length(t) > max then FailWith(TooBig("string", max), tooLong)
    else Ok(t)
  }

  function TitleSchema(v: Value): (r: Parsed<string>)
    ensures r.Ok? <==> v.Str? && 1 <= Utf16Length(Trim(v.s)) <= MaxTitleLength
    ensures r.Ok? ==> r.value == Trim(v.s)
  {
    BoundedText(v, MaxTitleLength, "title cannot be empty", "title must be at most 300 characters")
  }

  function BodySchema(v: Value): (r: Parsed<string>)
    ensures r.Ok? <==> v.Str? && 1 <= Utf16Length(Trim(v.s)) <= MaxBodyLength
    ensures r.Ok? ==> r.value == Trim(v.s)
  {
    BoundedText(v, MaxBodyLength, "body cannot be empty", "body must be at most 50000 characters")
  }

  function PublishedSchema(v: Value): (r: Parsed<Option<bool>>)
    ensures r.Ok? <==> v == Undefined || v.Bool?
    ensures r.Ok? ==> r.value == (if v.Bool? then Some(v.b) else None)
  {
    ZOptional(v, ZBoolean)
  }

  datatype CreatePostInput = CreatePostInput(title: string, body: string, published: Option<bool>)

  /** `createPostSchema`. */
  function CreatePostSchema(v: Value): (r: Parsed<CreatePostInput>)
    ensures r.Ok? <==> v.Obj? && TitleSchema(Get(v, "title")).Ok? && BodySchema(Get(v, "body")).Ok?
                       && PublishedSchema(Get(v, "published")).Ok?
    ensures r.Ok? ==> && r.value.title == Trim(Get(v, "title").s) && r.value.body == Trim(Get(v, "body").s)
                      && r.value.published == PublishedSchema(Get(v, "published")).value
    ensures r.Err? && v.Obj? && TitleSchema(Get(v, "title")).Err? ==> r.error.path == [Key("title")]
  {
    var _ :- ZObject(v);
    var title :- Field(v, "title", TitleSchema);
    var body :- Field(v, "body", BodySchema);
    var published :- Field(v, "published", PublishedSchema);
    Ok(CreatePostInput(title, body, published))
  }

  /** `.strip()`: keys the schema does not name make no difference. */
  lemma {:induction false} CreatePostIgnoresUnknownKeys(props: map<string, Value>, key: string, x: Value)
    requires key != "title" && key != "body" && key != "published"
    ensures CreatePostSchema(Obj(props[key := x])) == CreatePostSchema(Obj(props))
  {
    var v, w := Obj(props[key := x]), Obj(props);
    assert Get(v, "title") == Get(w, "title") && Get(v, "body") == Get(w, "body") && Get(v, "published") == Get(w, "published");
  }

  /** An accepted post is stored trimmed: with its title and body replaced by what the
      schema returned, the input gives the same post again. */
  lemma {:induction false} CreatePostIdempotent(props: map<string, Value>, p: CreatePostInput)
    requires CreatePostSchema(Obj(props)) == Ok(p)
    ensures CreatePostSchema(Obj(props["title" := Str(p.title)]["body" := Str(p.body)])) == Ok(p)
  {
    var w := Obj(props["title" := Str(p.title)]["body" := Str(p.body)]);
    ReplacedFields(props, Str(p.title), Str(p.body));
    AcceptedFieldsPassAgain(props, p);
    assert Field(w, "title", TitleSchema) == Ok(p.title);
    assert Field(w, "body", BodySchema) == Ok(p.body);
    assert Field(w, "published", PublishedSchema) == Ok(p.published);
  }

  lemma {:induction false} AcceptedFieldsPassAgain(props: map<string, Value>, p: CreatePostInput)
    requires CreatePostSchema(Obj(props)) == Ok(p)
    ensures TitleSchema(Str(p.title)) == Ok(p.title) && BodySchema(Str(p.body)) == Ok(p.body)
    ensures PublishedSchema(Get(Obj(props), "published")) == Ok(p.published)
  {
    var v := Obj(props);
    TrimIdempotent(Get(v, "title").s);
    TrimIdempotent(Get(v, "body").s);
  }

  lemma {:induction false} ReplacedFields(props: map<string, Value>, title: Value, body: Value)
    ensures var w := Obj(props["title" := title]["body" := body]);
            Get(w, "title") == title && Get(w, "body") == body && Get(w, "published") == Get(Obj(props), "published")
  {
    assert "title" != "body" && "published" != "title" && "published" != "body" by {
      assert |"title"| == 5 && |"body"| == 4 && |"published"| == 9;
    }
  }

  /** `n` copies of one character. */
  function Repeat(c: char, n: nat): (s: string)
    ensures |s| == n && forall i :: 0 <= i < n ==> s[i] == c
  {
    seq(n, _ => c)
  }

  lemma {:induction false} RepeatedLetterIsTrimmed(c: char, n: nat)
    requires !IsWhiteSpace(c) && c as int <= 0xFFFF
    ensures Trim(Repeat(c, n)) == Repeat(c, n) && Utf16Length(Repeat(c, n)) == n
  {
    TrimOfTrimmed(Repeat(c, n));
    Utf16LengthOfBmp(Repeat(c, n));
  }

  /** A title of `n` letters passes exactly when `n` is 1..300, a body exactly when it is
      1..50000; a blank title fails whatever its length. */
  lemma {:induction false} TitleAndBodyLimits(n: nat, blank: string)
    requires AllWhiteSpace(blank)
    ensures TitleSchema(Str(Repeat('a', n))).Ok? <==> 1 <= n <= 300
    ensures BodySchema(Str(Repeat('a', n))).Ok? <==> 1 <= n <= 50000
    ensures TitleSchema(Str(blank)) == FailWith(TooSmall("string", 1), "title cannot be empty")
  {
    RepeatedLetterIsTrimmed('a', n);
  }
}

/** The older body of `POST /posts`: a non-empty title and body, not trimmed, and an
    optional `published` flag. */
module LegacyPostsSchema {
  import opened Wrappers
  import opened JsText
  import opened JsValue
  import opened Zod
  import PostsSchema

  /** `createPostSchema`: unknown keys are dropped too, zod's default. */
  function CreatePostSchema(v: Value): (r: Parsed<PostsSchema.CreatePostInput>)
    ensures r.Ok? <==> v.Obj? && Get(v, "title").Str? && Get(v, "title").s != [] && Get(v, "body").Str? && Get(v, "body").s != []
                       && PostsSchema.PublishedSchema(Get(v, "published")).Ok?
    ensures r.Ok? ==> && r.value.title == Get(v, "title").s && r.value.body == Get(v, "body").s
                      && r.value.published == PostsSchema.PublishedSchema(Get(v, "published")).value
  {
    var _ :- ZObject(v);
    var title :- Field(v, "title", ZNonEmptyString);
    var body :- Field(v, "body", ZNonEmptyString);
    var published :- Field(v, "published", PostsSchema.PublishedSchema);
    Ok(PostsSchema.CreatePostInput(title, body, published))
  }

  /** With no trimming, a white-space title and body are kept as they are, where the newer
      schema refuses them. */
  lemma {:induction false} BlankPostAcceptedOnlyHere(blank: string)
    requires blank != [] && AllWhiteSpace(blank)
    ensures var v := Obj(map["title" := Str(blank), "body" := Str(blank)]);
            CreatePostSchema(v) == Ok(PostsSchema.CreatePostInput(blank, blank, None))
            && PostsSchema.CreatePostSchema(v).Err?
  {
    var v := Obj(map["title" := Str(blank), "body" := Str(blank)]);
    assert Get(v, "title") == Str(blank) && Get(v, "published") == Undefined;
  }

  /** Both schemas accept a post whose title and body are already trimmed and within the
      newer bounds, and agree on it. */
  lemma {:induction false} SchemasAgreeOnTrimmedPosts(v: Value)
    requires v.Obj? && Get(v, "title").Str? && Get(v, "body").Str?
    requires Trimmed(Get(v, "title").s) && Trimmed(Get(v, "body").s)
    requires 1 <= Utf16Length(Get(v, "title").s) <= 300 && 1 <= Utf16Length(Get(v, "body").s) <= 50000
    requires PostsSchema.PublishedSchema(Get(v, "published")).Ok?
    ensures CreatePostSchema(v).Ok? && CreatePostSchema(v) == PostsSchema.CreatePostSchema(v)
  {
    var title, body := Get(v, "title").s, Get(v, "body").s;
    TrimOfTrimmed(title);
    TrimOfTrimmed(body);
    assert PostsSchema.TitleSchema(Str(title)) == Ok(title) && ZNonEmptyString(Str(title)) == Ok(title);
    assert PostsSchema.BodySchema(Str(body)) == Ok(body) && ZNonEmptyString(Str(body)) == Ok(body);
  }
}
