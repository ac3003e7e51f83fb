/** The Workers AI speech-to-text answer: a raw schema that trims the texts and checks
    the timestamps, a transform that keeps the usable word timings (or, when there are
    none, the usable segment timings), and the normalised schema the result must pass. */
module WorkersAiSchema {
  import opened Wrappers
  import opened JsText
  import opened JsNumber
  import opened JsValue
  import opened Zod
  import opened SharedString

  const TimestampMessage: string := "Timestamp must be >= 0"

  /** `timeSecondSchema`: a finite number that is not negative. */
  function TimeSecond(v: Value): (r: Parsed<real>)
    ensures r.Ok? <==> v.Num? && v.n.Finite? && v.n.value >= 0.0
    ensures r.Ok? ==> r.value == v.n.value
    ensures v.Num? && v.n.Finite? && v.n.value < 0.0 ==> r == FailWith(TooSmall("number", 0), TimestampMessage)
  {
    var x :- ZNumber(v);
    if x < 0.0 then FailWith(TooSmall("number", 0), TimestampMessage) else Ok(x)
  }

  /** `timeSecondSchema.optional()`. */
  function OptionalTime(v: Value): (r: Parsed<Option<real>>)
    ensures r.Ok? <==> v == Undefined || (v.Num? && v.n.Finite? && v.n.value >= 0.0)
    ensures r.Ok? ==> r.value == (if v == Undefined then None else Some(v.n.value))
  {
    ZOptional(v, TimeSecond)
  }

  datatype Word = Word(word: Option<string>, start: Option<real>, end: Option<real>)

  datatype Segment = Segment(text: Option<string>, start: Option<real>, end: Option<real>, words: Option<seq<Word>>)

  datatype Info = Info(language: Option<string>, duration: Option<real>)

  datatype Raw = Raw(text: string, segments: Option<seq<Segment>>, info: Option<Info>)

  /** A text the raw schema let through: absent, or trimmed and not empty. */
  predicate TextOk(t: Option<string>) {
    t.Some? ==> t.value != [] && Trimmed(t.value)
  }

  /** A time the raw schema let through: absent or not negative. */
  predicate TimeOk(t: Option<real>) {
    t.Some? ==> t.value >= 0.0
  }

  predicate WordOk(w: Word) {
    TextOk(w.word) && TimeOk(w.start) && TimeOk(w.end)
  }

  predicate SegmentOk(s: Segment) {
    && TextOk(s.text) && TimeOk(s.start) && TimeOk(s.end)
    && (s.words.Some? ==> forall i :: 0 <= i < |s.words.value| ==> WordOk(s.words.value[i]))
  }

  /** What the raw schema guarantees about everything it returns. */
  predicate RawOk(raw: Raw) {
    && Trimmed(raw.text)
    && (raw.segments.Some? ==> forall i :: 0 <= i < |raw.segments.value| ==> SegmentOk(raw.segments.value[i]))
    && (raw.info.Some? ==> TextOk(raw.info.value.language) && TimeOk(raw.info.value.duration))
  }

  lemma {:induction false} OptionalTrimmedIsTextOk(v: Value)
    requires OptionalTrimmedStringSchema(v).Ok?
    ensures TextOk(OptionalTrimmedStringSchema(v).value)
  {
  }

  /** `workersAiWordSchema`; unknown keys are dropped. */
  function WordSchema(v: Value): (r: Parsed<Word>)
    ensures r.Ok? <==> && v.Obj? && OptionalTrimmedStringSchema(Get(v, "word")).Ok?
                       && OptionalTime(Get(v, "start")).Ok? && OptionalTime(Get(v, "end")).Ok?
    ensures r.Ok? ==> && r.value.word == OptionalTrimmedStringSchema(Get(v, "word")).value
                      && r.value.start == OptionalTime(Get(v, "start")).value
                      && r.value.end == OptionalTime(Get(v, "end")).value
    ensures r.Ok? ==> WordOk(r.value)
  {
    var _ :- ZObject(v);
    var word :- Field(v, "word", OptionalTrimmedStringSchema);
    OptionalTrimmedIsTextOk(Get(v, "word"));
    var start :- Field(v, "start", OptionalTime);
    var end :- Field(v, "end", OptionalTime);
    Ok(Word(word, start, end))
  }

  /** `z.array(workersAiWordSchema)`. */
  function WordsSchema(v: Value): (r: Parsed<seq<Word>>)
    ensures r.Ok? <==> v.Arr? && forall i :: 0 <= i < |v.items| ==> WordSchema(v.items[i]).Ok?
    ensures r.Ok? ==> |r.value| == |v.items| && forall i :: 0 <= i < |r.value| ==> r.value[i] == WordSchema(v.items[i]).value
    ensures r.Ok? ==> forall i :: 0 <= i < |r.value| ==> WordOk(r.value[i])
  {
    var words :- ZArray(v, WordSchema);
    assert forall i :: 0 <= i < |words| ==> WordSchema(v.items[i]).Ok? && words[i] == WordSchema(v.items[i]).value;
    Ok(words)
  }

  function OptionalWords(v: Value): (r: Parsed<Option<seq<Word>>>)
    ensures r.Ok? <==> v == Undefined || WordsSchema(v).Ok?
    ensures r.Ok? ==> r.value == (if v == Undefined then None else Some(WordsSchema(v).value))
  {
    ZOptional(v, WordsSchema)
  }

  /** `workersAiSegmentSchema`; unknown keys are dropped. */
  function SegmentSchema(v: Value): (r: Parsed<Segment>)
    ensures r.Ok? <==> && v.Obj? && OptionalTrimmedStringSchema(Get(v, "text")).Ok?
                       && OptionalTime(Get(v, "start")).Ok? && OptionalTime(Get(v, "end")).Ok?
                       && OptionalWords(Get(v, "words")).Ok?
    ensures r.Ok? ==> && r.value.text == OptionalTrimmedStringSchema(Get(v, "text")).value
                      && r.value.start == OptionalTime(Get(v, "start")).value
                      && r.value.end == OptionalTime(Get(v, "end")).value
                      && r.value.words == OptionalWords(Get(v, "words")).value
    ensures r.Ok? ==> SegmentOk(r.value)
  {
    var _ :- ZObject(v);
    var text :- Field(v, "text", OptionalTrimmedStringSchema);
    OptionalTrimmedIsTextOk(Get(v, "text"));
    var start :- Field(v, "start", OptionalTime);
    var end :- Field(v, "end", OptionalTime);
    var words :- Field(v, "words", OptionalWords);
    Ok(Segment(text, start, end, words))
  }

  /** `z.array(workersAiSegmentSchema).optional()`. */
  function OptionalSegments(v: Value): (r: Parsed<Option<seq<Segment>>>)
    ensures r.Ok? <==> v == Undefined || (v.Arr? && forall i :: 0 <= i < |v.items| ==> SegmentSchema(v.items[i]).Ok?)
    ensures r.Ok? && r.value.None? <==> v == Undefined
    ensures r.Ok? && r.value.Some? ==> (&& |r.value.value| == |v.items|
                                       && forall i :: 0 <= i < |v.items| ==> r.value.value[i] == SegmentSchema(v.items[i]).value)
    ensures r.Ok? && r.value.Some? ==> forall i :: 0 <= i < |r.value.value| ==> SegmentOk(r.value.value[i])
  {
    if v == Undefined then Ok(None)
    else
      var segments :- ZArray(v, SegmentSchema);
      assert forall i :: 0 <= i < |segments| ==> SegmentSchema(v.items[i]).Ok? && segments[i] == SegmentSchema(v.items[i]).value;
      Ok(Some(segments))
  }

  /** The `transcription_info` object. */
  function InfoSchema(v: Value): (r: Parsed<Info>)
    ensures r.Ok? <==> v.Obj? && OptionalTrimmedStringSchema(Get(v, "language")).Ok? && OptionalTime(Get(v, "duration")).Ok?
    ensures r.Ok? ==> r.value == Info(OptionalTrimmedStringSchema(Get(v, "language")).value, OptionalTime(Get(v, "duration")).value)
    ensures r.Ok? ==> TextOk(r.value.language) && TimeOk(r.value.duration)
  {
    var _ :- ZObject(v);
    var language :- Field(v, "language", OptionalTrimmedStringSchema);
    OptionalTrimmedIsTextOk(Get(v, "language"));
    var duration :- Field(v, "duration", OptionalTime);
    Ok(Info(language, duration))
  }

  function OptionalInfo(v: Value): (r: Parsed<Option<Info>>)
    ensures r.Ok? <==> v == Undefined || InfoSchema(v).Ok?
    ensures r.Ok? ==> r.value == (if v == Undefined then None else Some(InfoSchema(v).value))
  {
    ZOptional(v, InfoSchema)
  }

  /** `workersAiRawTranscriptionSchema`: a text is required, everything else optional. */
  function RawSchema(v: Value): (r: Parsed<Raw>)
    ensures r.Ok? <==> && v.Obj? && Get(v, "text").Str? && OptionalSegments(Get(v, "segments")).Ok?
                       && OptionalInfo(Get(v, "transcription_info")).Ok?
    ensures r.Ok? ==> && r.value.text == Trim(Get(v, "text").s)
                      && r.value.segments == OptionalSegments(Get(v, "segments")).value
                      && r.value.info == OptionalInfo(Get(v, "transcription_info")).value
    ensures r.Ok? ==> RawOk(r.value)
  {
    var _ :- ZObject(v);
    var text :- Field(v, "text", TrimmedStringSchema);
    var segments :- SegmentsKey(v);
    var info :- InfoKey(v);
    Ok(Raw(text, segments, info))
  }

  /** Property `segments` of the raw answer. */
  function SegmentsKey(v: Value): (r: Parsed<Option<seq<Segment>>>)
    ensures r.Ok? <==> OptionalSegments(Get(v, "segments")).Ok?
    ensures r.Ok? ==> r.value == OptionalSegments(Get(v, "segments")).value
    ensures r.Ok? && r.value.Some? ==> forall i :: 0 <= i < |r.value.value| ==> SegmentOk(r.value.value[i])
  {
    Field(v, "segments", OptionalSegments)
  }

  /** Property `transcription_info` of the raw answer. */
  function InfoKey(v: Value): (r: Parsed<Option<Info>>)
    ensures r.Ok? <==> OptionalInfo(Get(v, "transcription_info")).Ok?
    ensures r.Ok? ==> r.value == OptionalInfo(Get(v, "transcription_info")).value
    ensures r.Ok? && r.value.Some? ==> TextOk(r.value.value.language) && TimeOk(r.value.value.duration)
  {
    Field(v, "transcription_info", OptionalInfo)
  }

  /** `WorkersAiSegment`; `confidence` None stands for `null`. */
  datatype SegmentOut = SegmentOut(text: string, start: real, end: real, confidence: Option<real>)

  /** `WorkersAiTranscription`; `language` and `duration` None stand for `null`. */
  datatype Transcription = Transcription(text: string, segments: seq<SegmentOut>, language: Option<string>, duration: Option<real>)

  /** The filter both extractors apply: a truthy text and both times, the end not
      before the start. */
  predicate Usable(text: Option<string>, start: Option<real>, end: Option<real>) {
    text.Some? && text.value != [] && start.Some? && end.Some? && end.value >= start.value
  }

  /** What a normalised segment must be: a text, times in order and not negative, and
      a confidence, when there is one, within 0..1. */
  predicate ValidSegment(s: SegmentOut) {
    && s.text != [] && 0.0 <= s.start <= s.end
    && (s.confidence.Some? ==> 0.0 <= s.confidence.value <= 1.0)
  }

  /** One candidate: kept with no confidence when usable, dropped otherwise. */
  function Emit(text: Option<string>, start: Option<real>, end: Option<real>): (r: seq<SegmentOut>)
    ensures |r| <= 1
    ensures r != [] <==> Usable(text, start, end)
    ensures r != [] ==> r[0] == SegmentOut(text.value, start.value, end.value, None)
    ensures r != [] && TimeOk(start) ==> ValidSegment(r[0])
  {
    if Usable(text, start, end) then [SegmentOut(text.value, start.value, end.value, None)] else []
  }

  function WordOut(w: Word): SegmentOut
    requires Usable(w.word, w.start, w.end)
  {
    SegmentOut(w.word.value, w.start.value, w.end.value, None)
  }

  function SegmentLevelOut(s: Segment): SegmentOut
    requires Usable(s.text, s.start, s.end)
  {
    SegmentOut(s.text.value, s.start.value, s.end.value, None)
  }

  /** The inner `flatMap` over one segment's words. */
  function WordsOf(words: seq<Word>): (r: seq<SegmentOut>)
    ensures |r| <= |words|
    ensures (forall i :: 0 <= i < |words| ==> WordOk(words[i])) ==> forall k :: 0 <= k < |r| ==> ValidSegment(r[k])
    ensures forall o :: o in r <==> exists i :: 0 <= i < |words| && Usable(words[i].word, words[i].start, words[i].end)
                                                 && o == WordOut(words[i])
  {
    if words == [] then []
    else
      var w := words[0];
      var rest := WordsOf(words[1..]);
      assert forall i :: 1 <= i < |words| ==> words[i] == words[1..][i - 1];
      Emit(w.word, w.start, w.end) + rest
  }

  function WordsOfSegment(s: Segment): seq<Word> {
    if s.words.Some? then s.words.value else []
  }

  /** `extractWordLevelSegments`: every usable word of every segment, in order. */
  function WordLevelSegments(segments: seq<Segment>): (r: seq<SegmentOut>)
    ensures (forall i :: 0 <= i < |segments| ==> SegmentOk(segments[i])) ==> forall k :: 0 <= k < |r| ==> ValidSegment(r[k])
    ensures forall o :: o in r <==> exists i :: 0 <= i < |segments| && o in WordsOf(WordsOfSegment(segments[i]))
  {
    if segments == [] then []
    else
      var rest := WordLevelSegments(segments[1..]);
      assert forall i :: 1 <= i < |segments| ==> segments[i] == segments[1..][i - 1];
      WordsOf(WordsOfSegment(segments[0])) + rest
  }

  /** `extractSegmentLevelFallback`: every usable segment, in order, ignoring its words. */
  function FallbackSegments(segments: seq<Segment>): (r: seq<SegmentOut>)
    ensures |r| <= |segments|
    ensures (forall i :: 0 <= i < |segments| ==> SegmentOk(segments[i])) ==> forall k :: 0 <= k < |r| ==> ValidSegment(r[k])
    ensures forall o :: o in r <==> exists i :: 0 <= i < |segments| && Usable(segments[i].text, segments[i].start, segments[i].end)
                                                 && o == SegmentLevelOut(segments[i])
  {
    if segments == [] then []
    else
      var s := segments[0];
      var rest := FallbackSegments(segments[1..]);
      assert forall i :: 1 <= i < |segments| ==> segments[i] == segments[1..][i - 1];
      Emit(s.text, s.start, s.end) + rest
  }

  /** The extractors keep the input's order: each distributes over concatenation. */
  lemma {:induction false} WordsOfAppend(a: seq<Word>, b: seq<Word>)
    ensures WordsOf(a + b) == WordsOf(a) + WordsOf(b)
  {
    if a != [] {
      assert (a + b)[0] == a[0] && (a + b)[1..] == a[1..] + b;
      WordsOfAppend(a[1..], b);
    } else {
      assert a + b == b;
    }
  }

  lemma {:induction false} WordLevelAppend(a: seq<Segment>, b: seq<Segment>)
    ensures WordLevelSegments(a + b) == WordLevelSegments(a) + WordLevelSegments(b)
  {
    if a != [] {
      assert (a + b)[0] == a[0] && (a + b)[1..] == a[1..] + b;
      WordLevelAppend(a[1..], b);
    } else {
      assert a + b == b;
    }
  }

  lemma {:induction false} FallbackAppend(a: seq<Segment>, b: seq<Segment>)
    ensures FallbackSegments(a + b) == FallbackSegments(a) + FallbackSegments(b)
  {
    if a != [] {
      assert (a + b)[0] == a[0] && (a + b)[1..] == a[1..] + b;
      FallbackAppend(a[1..], b);
    } else {
      assert a + b == b;
    }
  }

  function SourceSegments(raw: Raw): seq<Segment> {
    if raw.segments.Some? then raw.segments.value else []
  }

  /** The transform step of `workersAiTranscriptionSchema`. */
  function Transform(raw: Raw): (r: Transcription)
    ensures r.text == raw.text
    ensures r.language == (if raw.info.Some? then raw.info.value.language else None)
    ensures r.duration == (if raw.info.Some? then raw.info.value.duration else None)
    ensures WordLevelSegments(SourceSegments(raw)) != [] ==> r.segments == WordLevelSegments(SourceSegments(raw))
    ensures WordLevelSegments(SourceSegments(raw)) == [] ==> r.segments == FallbackSegments(SourceSegments(raw))
  {
    var source := SourceSegments(raw);
    var wordLevel := WordLevelSegments(source);
    Transcription(raw.text, if |wordLevel| > 0 then wordLevel else FallbackSegments(source),
                  if raw.info.Some? then raw.info.value.language else None,
                  if raw.info.Some? then raw.info.value.duration else None)
  }

  /** A single usable word anywhere decides for word timings; with none, the segment
      timings are used, and the words of those segments are ignored. */
  lemma {:induction false} WordTimingsWin(raw: Raw, i: nat, j: nat)
    requires i < |SourceSegments(raw)|
    requires var words := WordsOfSegment(SourceSegments(raw)[i]);
             j < |words| && Usable(words[j].word, words[j].start, words[j].end)
    ensures Transform(raw).segments == WordLevelSegments(SourceSegments(raw))
    ensures WordOut(WordsOfSegment(SourceSegments(raw)[i])[j]) in Transform(raw).segments
  {
    var source := SourceSegments(raw);
    var words := WordsOfSegment(source[i]);
    assert WordOut(words[j]) in WordsOf(words);
    assert WordOut(words[j]) in WordLevelSegments(source);
  }

  /** A segment's words give nothing exactly when none of them is usable. */
  lemma {:induction false} WordsOfEmpty(words: seq<Word>)
    ensures WordsOf(words) == [] <==> forall j :: 0 <= j < |words| ==> !UsableWord(words[j])
  {
    if words != [] {
      WordsOfEmpty(words[1..]);
      assert forall j :: 1 <= j < |words| ==> words[j] == words[1..][j - 1];
    }
  }

  /** The word-level extractor finds nothing exactly when no segment's words give
      anything. */
  lemma {:induction false} WordLevelEmpty(segments: seq<Segment>)
    ensures WordLevelSegments(segments) == [] <==> forall i :: 0 <= i < |segments| ==> WordsOf(WordsOfSegment(segments[i])) == []
  {
    if segments != [] {
      var head := WordsOf(WordsOfSegment(segments[0]));
      var tail := segments[1..];
      assert WordLevelSegments(segments) == head + WordLevelSegments(tail);
      WordLevelEmpty(tail);
      if forall i :: 0 <= i < |segments| ==> WordsOf(WordsOfSegment(segments[i])) == [] {
        forall i | 0 <= i < |tail| ensures WordsOf(WordsOfSegment(tail[i])) == [] {
          assert tail[i] == segments[i + 1];
        }
      }
      if head == [] && WordLevelSegments(tail) == [] {
        forall i | 0 <= i < |segments| ensures WordsOf(WordsOfSegment(segments[i])) == [] {
          if i > 0 {
            assert segments[i] == tail[i - 1];
          }
        }
      }
    }
  }

  /** With no usable word anywhere, the segment timings are used. */
  lemma {:induction false} SegmentFallbackWithoutWords(raw: Raw)
    requires forall i :: 0 <= i < |SourceSegments(raw)| ==> NoUsableWord(SourceSegments(raw)[i])
    ensures Transform(raw).segments == FallbackSegments(SourceSegments(raw))
  {
    var source := SourceSegments(raw);
    forall i | 0 <= i < |source|
      ensures WordsOf(WordsOfSegment(source[i])) == []
    {
      WordsOfEmpty(WordsOfSegment(source[i]));
    }
    WordLevelEmpty(source);
  }

  predicate UsableWord(w: Word) {
    Usable(w.word, w.start, w.end)
  }

  predicate NoUsableWord(s: Segment) {
    forall j :: 0 <= j < |WordsOfSegment(s)| ==> !UsableWord(WordsOfSegment(s)[j])
  }

  const SegmentTextMessage: string := "Segment text cannot be empty"
  const ConfidenceMinMessage: string := "Confidence must be >= 0"
  const ConfidenceMaxMessage: string := "Confidence must be <= 1"
  const SegmentOrderMessage: string := "Segment end must be >= start"
  const LanguageMessage: string := "language cannot be empty"

  /** `workersAiNormalizedSegmentSchema`, its fields in order and then the refinement on
      the two times. */
  function CheckSegment(s: SegmentOut): (r: Parsed<SegmentOut>)
    ensures r.Ok? <==> ValidSegment(s)
    ensures r.Ok? ==> r.value == s
    ensures s.text == [] ==> r == Err(Issue([Key("text")], TooSmall("string", 1), SegmentTextMessage))
    ensures s.text != [] && 0.0 <= s.start && 0.0 <= s.end && s.confidence.None? && s.end < s.start
            ==> r == Err(Issue([Key("end")], Custom, SegmentOrderMessage))
  {
    if s.text == [] then Err(Issue([Key("text")], TooSmall("string", 1), SegmentTextMessage))
    else
      var _ :- Under(Key("start"), TimeSecond(Num(Finite(s.start))));
      var _ :- Under(Key("end"), TimeSecond(Num(Finite(s.end))));
      if s.confidence.Some? && s.confidence.value < 0.0 then
        Under(Key("confidence"), FailWith(TooSmall("number", 0), ConfidenceMinMessage))
      else if s.confidence.Some? && s.confidence.value > 1.0 then
        Under(Key("confidence"), FailWith(TooBig("number", 1), ConfidenceMaxMessage))
      else if s.end < s.start then Err(Issue([Key("end")], Custom, SegmentOrderMessage))
      else Ok(s)
  }

  /** `z.array(workersAiNormalizedSegmentSchema)` from index `from` on. */
  function CheckSegments(segments: seq<SegmentOut>, from: nat): (r: Parsed<seq<SegmentOut>>)
    requires from <= |segments|
    ensures r.Ok? <==> forall i :: from <= i < |segments| ==> ValidSegment(segments[i])
    ensures r.Ok? ==> r.value == segments[from..]
    decreases |segments| - from
  {
    if from == |segments| then Ok([])
    else
      var head :- Under(Index(from), CheckSegment(segments[from]));
      var tail :- CheckSegments(segments, from + 1);
      Ok([head] + tail)
  }

  /** `workersAiNormalizedTranscriptionSchema`. */
  function NormalizedSchema(t: Transcription): (r: Parsed<Transcription>)
    ensures r.Ok? <==> && (forall i :: 0 <= i < |t.segments| ==> ValidSegment(t.segments[i]))
                       && (t.language.Some? ==> t.language.value != [])
                       && TimeOk(t.duration)
    ensures r.Ok? ==> r.value == t
  {
    var segments :- Under(Key("segments"), CheckSegments(t.segments, 0));
    if t.language.Some? && t.language.value == [] then Under(Key("language"), FailWith(TooSmall("string", 1), LanguageMessage))
    else if t.duration.Some? && t.duration.value < 0.0 then Under(Key("duration"), FailWith(TooSmall("number", 0), TimestampMessage))
    else Ok(Transcription(t.text, segments, t.language, t.duration))
  }

  /** The normalised schema never refuses what the transform builds from a raw answer:
      the raw schema and the extractors' filter already ensure all it checks. */
  lemma {:induction false} TransformIsNormalized(raw: Raw)
    requires RawOk(raw)
    ensures NormalizedSchema(Transform(raw)) == Ok(Transform(raw))
  {
    var source := SourceSegments(raw);
    assert forall i :: 0 <= i < |source| ==> SegmentOk(source[i]);
  }

  datatype WorkersAiError = WorkersAiResponseError(message: string)

  const MismatchMessage: string := "Workers AI transcription schema mismatch"

  /** `extractWorkersAiTranscription`. */
  function ExtractWorkersAiTranscription(payload: Value): (r: Result<Transcription, WorkersAiError>)
    ensures r.Err? ==> r.error == WorkersAiResponseError(MismatchMessage)
    ensures RawSchema(payload).Err? ==> r.Err?
    ensures r.Ok? ==> RawSchema(payload).Ok? && r.value == Transform(RawSchema(payload).value)
  {
    match RawSchema(payload)
    case Err(_) => Err(WorkersAiResponseError(MismatchMessage))
    case Ok(raw) =>
      match NormalizedSchema(Transform(raw))
      case Err(_) => Err(WorkersAiResponseError(MismatchMessage))
      case Ok(t) => Ok(t)
  }

  /** The answer is refused exactly when the raw schema refuses it. */
  lemma {:induction false} ExtractFailsOnlyOnRawMismatch(payload: Value)
    ensures ExtractWorkersAiTranscription(payload).Err? <==> RawSchema(payload).Err?
  {
    if RawSchema(payload).Ok? {
      TransformIsNormalized(RawSchema(payload).value);
    }
  }

  /** Two words of one segment, "hello" over 0..0.4 and "world" over 0.4..0.8, become two
      segments with no confidence; text, language and duration pass through. */
  lemma {:induction false} HelloWorldWords(raw: Raw)
    requires raw == Raw("hello world",
                        Some([Segment(None, None, None, Some([Word(Some("hello"), Some(0.0), Some(0.4)),
                                                              Word(Some("world"), Some(0.4), Some(0.8))]))]),
                        Some(Info(Some("en"), Some(2.3))))
    ensures Transform(raw) == Transcription("hello world",
                                            [SegmentOut("hello", 0.0, 0.4, None), SegmentOut("world", 0.4, 0.8, None)],
                                            Some("en"), Some(2.3))
  {
    var words := WordsOfSegment(raw.segments.value[0]);
    assert words[1..][1..] == [];
    assert WordsOf(words) == [SegmentOut("hello", 0.0, 0.4, None), SegmentOut("world", 0.4, 0.8, None)];
    assert raw.segments.value[1..] == [];
  }

  /** An object without `text` is a schema mismatch. */
  lemma {:induction false} MissingTextIsMismatch(payload: Value)
    requires payload.Obj? && Get(payload, "text") == Undefined
    ensures ExtractWorkersAiTranscription(payload) == Err(WorkersAiResponseError(MismatchMessage))
  {
  }

  /** A negative timestamp on a segment fails the whole answer. */
  lemma {:induction false} NegativeTimestampIsMismatch(payload: Value, i: nat, t: real)
    requires t < 0.0
    requires Get(payload, "segments").Arr? && i < |Get(payload, "segments").items|
    requires Get(Get(payload, "segments").items[i], "start") == Num(Finite(t))
    ensures ExtractWorkersAiTranscription(payload) == Err(WorkersAiResponseError(MismatchMessage))
  {
    var item := Get(payload, "segments").items[i];
    assert OptionalTime(Get(item, "start")).Err?;
    assert SegmentSchema(item).Err?;
    assert OptionalSegments(Get(payload, "segments")).Err?;
  }

  /** So does a negative duration. */
  lemma {:induction false} NegativeDurationIsMismatch(payload: Value, t: real)
    requires t < 0.0
    requires Get(Get(payload, "transcription_info"), "duration") == Num(Finite(t))
    ensures ExtractWorkersAiTranscription(payload) == Err(WorkersAiResponseError(MismatchMessage))
  {
    var info := Get(payload, "transcription_info");
    assert OptionalTime(Get(info, "duration")).Err?;
    assert InfoSchema(info).Err?;
    assert OptionalInfo(info).Err?;
  }

  /** So does a negative timestamp on any word of any segment. */
  lemma {:induction false} NegativeWordTimestampIsMismatch(payload: Value, i: nat, j: nat, t: real)
    requires t < 0.0
    requires Get(payload, "segments").Arr? && i < |Get(payload, "segments").items|
    requires var words := Get(Get(payload, "segments").items[i], "words");
             words.Arr? && j < |words.items| && Get(words.items[j], "end") == Num(Finite(t))
    ensures ExtractWorkersAiTranscription(payload) == Err(WorkersAiResponseError(MismatchMessage))
  {
    var item := Get(payload, "segments").items[i];
    var words := Get(item, "words");
    assert OptionalTime(Get(words.items[j], "end")).Err?;
    assert WordSchema(words.items[j]).Err?;
    assert WordsSchema(words).Err?;
    assert SegmentSchema(item).Err?;
  }
}
