/** Text rules both TikHub extractors apply: the first usable entry of a URL list, the
    `#tags` of a description, hashtag normalisation, first-occurrence de-duplication
    (`Array.from(new Set(...))`) and the seconds-or-milliseconds duration rule. */
module TikHubText {
  import opened Wrappers
  import opened JsText
  import opened JsNumber

  /** Entry `i` is the first entry of `list` that is not blank. */
  predicate IsFirstNonBlank(list: seq<string>, i: int) {
    0 <= i < |list| && !AllWhiteSpace(list[i]) && forall j :: 0 <= j < i ==> AllWhiteSpace(list[j])
  }

  /** `list.map((v) => v.trim()).find((v) => v.length > 0)`: the first entry that is not
      blank, trimmed. */
  function FirstNonBlank(list: seq<string>): (r: Option<string>)
    ensures r.None? <==> forall i :: 0 <= i < |list| ==> AllWhiteSpace(list[i])
    ensures r.Some? ==> r.value != [] && Trimmed(r.value)
  {
    if list == [] then None
    else if !AllWhiteSpace(list[0]) then Some(Trim(list[0]))
    else
      assert forall i :: 0 < i < |list| ==> list[i] == list[1..][i - 1];
      FirstNonBlank(list[1..])
  }

  /** The entry found is the first one that is not blank, trimmed. */
  lemma {:induction false} FirstNonBlankAt(list: seq<string>, i: nat)
    requires IsFirstNonBlank(list, i)
    ensures FirstNonBlank(list) == Some(Trim(list[i]))
  {
    if i > 0 {
      var tail := list[1..];
      assert AllWhiteSpace(list[0]);
      assert tail[i - 1] == list[i];
      forall j | 0 <= j < i - 1 ensures AllWhiteSpace(tail[j]) {
        assert tail[j] == list[j + 1];
      }
      FirstNonBlankAt(tail, i - 1);
    }
  }

  /** The end of the run of `tagChar` characters starting at `i`. */
  function RunEnd(s: string, i: nat, tagChar: char -> bool): (e: nat)
    requires i <= |s|
    ensures i <= e <= |s|
    ensures forall k :: i <= k < e ==> tagChar(s[k])
    ensures e == |s| || !tagChar(s[e])
    decreases |s| - i
  {
    if i < |s| && tagChar(s[i]) then RunEnd(s, i + 1, tagChar) else i
  }

  /** `t` is a whole match of `/#[C]+/` at position `j` of `s`, without its '#': a '#'
      followed by the longest run of tag characters. */
  ghost predicate TagAt(s: string, j: int, t: string, tagChar: char -> bool) {
    0 <= j && j + 1 + |t| <= |s| && s[j] == '#' && s[j + 1..j + 1 + |t|] == t
    && (j + 1 + |t| == |s| || !tagChar(s[j + 1 + |t|]))
  }

  /** `t` is a match of `/#[C]+/` somewhere at or after position `i`. */
  ghost predicate TagAfter(s: string, i: int, t: string, tagChar: char -> bool) {
    exists j :: i <= j && TagAt(s, j, t, tagChar)
  }

  /** The matches of `/#[C]+/g` from position `i` on, each without its '#'. */
  function TagsFrom(s: string, i: nat, tagChar: char -> bool): (r: seq<string>)
    requires i <= |s|
    ensures forall k :: 0 <= k < |r| ==> r[k] != [] && forall m :: 0 <= m < |r[k]| ==> tagChar(r[k][m])
    ensures forall k :: 0 <= k < |r| ==> TagAfter(s, i, r[k], tagChar)
    decreases |s| - i
  {
    if i == |s| then []
    else if s[i] == '#' && i + 1 < |s| && tagChar(s[i + 1]) then
      var e := RunEnd(s, i + 1, tagChar);
      var rest := TagsFrom(s, e, tagChar);
      assert TagAt(s, i, s[i + 1..e], tagChar);
      [s[i + 1..e]] + rest
    else TagsFrom(s, i + 1, tagChar)
  }

  /** `description.match(/#[C]+/g)?.map((tag) => tag.slice(1)).filter(Boolean) ?? []`,
      the character class `C` given by `tagChar`: every tag found is a whole match in
      the description, so none is empty; when '#' is not itself a tag character, the
      tags are exactly the runs after the tag starts of the description, in order. */
  function DescriptionTags(s: string, tagChar: char -> bool): (r: seq<string>)
    ensures forall k :: 0 <= k < |r| ==> r[k] != [] && TagAfter(s, 0, r[k], tagChar)
    ensures !tagChar('#') ==> RunsAfter(s, r, TagStarts(s, 0, tagChar), tagChar)
  {
    if !tagChar('#') then
      TagsFromExactly(s, 0, tagChar);
      TagsFrom(s, 0, tagChar)
    else TagsFrom(s, 0, tagChar)
  }

  /** A '#' followed by a tag character: a match of `/#[C]+/` starts here unless an
      earlier match has already swallowed the '#'. */
  predicate TagStart(s: string, j: int, tagChar: char -> bool) {
    0 <= j && j + 1 < |s| && s[j] == '#' && tagChar(s[j + 1])
  }

  /** The run of tag characters after the '#' at `j`. */
  function TagText(s: string, j: nat, tagChar: char -> bool): string
    requires j < |s|
  {
    s[j + 1..RunEnd(s, j + 1, tagChar)]
  }

  /** Every tag start at or after `i`, in increasing order. */
  ghost function TagStarts(s: string, i: nat, tagChar: char -> bool): (ps: seq<nat>)
    requires i <= |s|
    ensures forall k :: 0 <= k < |ps| ==> i <= ps[k] < |s| && TagStart(s, ps[k], tagChar)
    ensures forall k, m :: 0 <= k < m < |ps| ==> ps[k] < ps[m]
    ensures forall j :: j in ps <==> i <= j < |s| && TagStart(s, j, tagChar)
    decreases |s| - i
  {
    if i == |s| then []
    else if TagStart(s, i, tagChar) then [i] + TagStarts(s, i + 1, tagChar)
    else TagStarts(s, i + 1, tagChar)
  }

  /** `r[k]` is the run after the tag start `ps[k]`, for every `k`. */
  predicate RunsAfter(s: string, r: seq<string>, ps: seq<nat>, tagChar: char -> bool) {
    |r| == |ps| && forall k :: 0 <= k < |r| ==> ps[k] < |s| && r[k] == TagText(s, ps[k], tagChar)
  }

  /** The scan is complete and keeps the order of the text: when '#' is not a tag
      character, the tags from `i` are the runs after the tag starts from `i`, one each,
      and a '#' followed by anything else yields nothing. */
  lemma {:induction false} TagsFromExactly(s: string, i: nat, tagChar: char -> bool)
    requires i <= |s| && !tagChar('#')
    ensures RunsAfter(s, TagsFrom(s, i, tagChar), TagStarts(s, i, tagChar), tagChar)
    decreases |s| - i
  {
    if i < |s| {
      if TagStart(s, i, tagChar) {
        var e := RunEnd(s, i + 1, tagChar);
        TagsFromExactly(s, e, tagChar);
        NoStartInRun(s, i + 1, e, tagChar);
        TagsFromAtStart(s, i, tagChar);
        var r, ps := TagsFrom(s, e, tagChar), TagStarts(s, e, tagChar);
        RunsAfterCons(s, TagText(s, i, tagChar), r, i, ps, tagChar);
        assert TagsFrom(s, i, tagChar) == [TagText(s, i, tagChar)] + r;
        assert TagStarts(s, i, tagChar) == [i] + ps;
      } else {
        TagsFromExactly(s, i + 1, tagChar);
        TagsFromOffStart(s, i, tagChar);
      }
    }
  }

  lemma {:induction false} TagsFromAtStart(s: string, i: nat, tagChar: char -> bool)
    requires TagStart(s, i, tagChar)
    ensures TagsFrom(s, i, tagChar) == [TagText(s, i, tagChar)] + TagsFrom(s, RunEnd(s, i + 1, tagChar), tagChar)
    ensures TagStarts(s, i, tagChar) == [i] + TagStarts(s, i + 1, tagChar)
  {
  }

  lemma {:induction false} TagsFromOffStart(s: string, i: nat, tagChar: char -> bool)
    requires i < |s| && !TagStart(s, i, tagChar)
    ensures TagsFrom(s, i, tagChar) == TagsFrom(s, i + 1, tagChar)
    ensures TagStarts(s, i, tagChar) == TagStarts(s, i + 1, tagChar)
  {
  }

  lemma {:induction false} RunsAfterCons(s: string, t: string, r: seq<string>, p: nat, ps: seq<nat>, tagChar: char -> bool)
    requires p < |s| && t == TagText(s, p, tagChar) && RunsAfter(s, r, ps, tagChar)
    ensures RunsAfter(s, [t] + r, [p] + ps, tagChar)
  {
    forall k | 0 < k < |r| + 1
      ensures ([p] + ps)[k] < |s| && ([t] + r)[k] == TagText(s, ([p] + ps)[k], tagChar)
    {
      assert ([p] + ps)[k] == ps[k - 1] && ([t] + r)[k] == r[k - 1];
    }
  }

  /** No tag starts inside a run of tag characters. */
  lemma {:induction false} NoStartInRun(s: string, a: nat, e: nat, tagChar: char -> bool)
    requires a <= e <= |s| && !tagChar('#') && forall k :: a <= k < e ==> tagChar(s[k])
    ensures TagStarts(s, a, tagChar) == TagStarts(s, e, tagChar)
    decreases e - a
  {
    if a < e {
      NoStartInRun(s, a + 1, e, tagChar);
    }
  }

  /** A stretch without '#' holds no tag. */
  lemma {:induction false} TagsSkipPlain(s: string, i: nat, j: nat, tagChar: char -> bool)
    requires i <= j <= |s| && forall k :: i <= k < j ==> s[k] != '#'
    ensures TagsFrom(s, i, tagChar) == TagsFrom(s, j, tagChar)
    decreases j - i
  {
    if i < j {
      TagsSkipPlain(s, i + 1, j, tagChar);
    }
  }

  /** A run of tag characters from `i` to `e` ends at `e`. */
  lemma {:induction false} RunEndIs(s: string, i: nat, e: nat, tagChar: char -> bool)
    requires i <= e <= |s| && (forall k :: i <= k < e ==> tagChar(s[k])) && (e == |s| || !tagChar(s[e]))
    ensures RunEnd(s, i, tagChar) == e
    decreases e - i
  {
    if i < e {
      RunEndIs(s, i + 1, e, tagChar);
    }
  }

  /** A string without '#' has no tags. */
  lemma {:induction false} NoHashNoTags(s: string, tagChar: char -> bool)
    requires '#' !in s
    ensures DescriptionTags(s, tagChar) == []
  {
    TagsSkipPlain(s, 0, |s|, tagChar);
  }

  /** A '#' followed by a maximal run of tag characters ending at `e` yields that run, and
      the scan goes on after it. */
  lemma {:induction false} TagThenRest(s: string, i: nat, e: nat, tagChar: char -> bool)
    requires i + 1 < e <= |s| && s[i] == '#'
    requires (forall k :: i + 1 <= k < e ==> tagChar(s[k])) && (e == |s| || !tagChar(s[e]))
    ensures TagsFrom(s, i, tagChar) == [s[i + 1..e]] + TagsFrom(s, e, tagChar)
  {
    RunEndIs(s, i + 1, e, tagChar);
  }

  /** The word `a` of tag characters after the '#' at `i`, ended by the end of `s` or by a
      character that is not one, is the next tag. */
  lemma {:induction false} WordTag(s: string, i: nat, a: string, tagChar: char -> bool)
    requires i + 1 + |a| <= |s| && s[i] == '#' && s[i + 1..i + 1 + |a|] == a && a != []
    requires forall k :: 0 <= k < |a| ==> tagChar(a[k])
    requires i + 1 + |a| == |s| || !tagChar(s[i + 1 + |a|])
    ensures TagsFrom(s, i, tagChar) == [a] + TagsFrom(s, i + 1 + |a|, tagChar)
  {
    forall k | i + 1 <= k < i + 1 + |a| ensures tagChar(s[k]) {
      assert s[k] == a[k - i - 1];
    }
    TagThenRest(s, i, i + 1 + |a|, tagChar);
  }

  /** A prefix without '#' is skipped. */
  lemma {:induction false} PlainPrefixSkipped(p: string, q: string, tagChar: char -> bool)
    requires '#' !in p
    ensures TagsFrom(p + q, 0, tagChar) == TagsFrom(p + q, |p|, tagChar)
  {
    forall k | 0 <= k < |p| ensures (p + q)[k] != '#' {
      assert (p + q)[k] == p[k];
    }
    TagsSkipPlain(p + q, 0, |p|, tagChar);
  }

  /** Two words marked with '#' after a plain prefix, separated by a space, are the
      description's two tags. */
  lemma {:induction false} TagsOfTwoWords(p: string, a: string, b: string, tagChar: char -> bool)
    requires '#' !in p && a != [] && b != [] && !tagChar(' ')
    requires (forall k :: 0 <= k < |a| ==> tagChar(a[k])) && (forall k :: 0 <= k < |b| ==> tagChar(b[k]))
    ensures DescriptionTags(p + "#" + a + " #" + b, tagChar) == [a, b]
  {
    var q := "#" + a + " #" + b;
    var s := p + q;
    assert p + "#" + a + " #" + b == s;
    var e := |p| + 1 + |a|;
    MarkedWords(a, b);
    SuffixSlice(p, q, 0, 1);
    SuffixSlice(p, q, 1, 1 + |a|);
    SuffixSlice(p, q, 1 + |a|, 2 + |a|);
    SuffixSlice(p, q, 2 + |a|, 3 + |a|);
    SuffixSlice(p, q, 3 + |a|, |q|);
    PlainPrefixSkipped(p, q, tagChar);
    TwoWordTags(s, |p|, a, b, tagChar);
  }

  lemma {:induction false} MarkedWords(a: string, b: string)
    ensures var q := "#" + a + " #" + b;
            |q| == |a| + |b| + 3 && q[0] == '#' && q[1..1 + |a|] == a && q[1 + |a|] == ' ' && q[2 + |a|] == '#'
            && q[3 + |a|..] == b
  {
  }

  /** Positions in `q` are positions in `p + q`, shifted by `|p|`. */
  lemma {:induction false} SuffixSlice(p: string, q: string, j: nat, k: nat)
    requires j < k <= |q|
    ensures (p + q)[|p| + j..|p| + k] == q[j..k] && (p + q)[|p| + j] == q[j]
  {
  }

  /** The tags from a '#' at `i` followed by `a`, a space, a '#' and `b` at the end. */
  lemma {:induction false} TwoWordTags(s: string, i: nat, a: string, b: string, tagChar: char -> bool)
    requires i + 1 + |a| + 2 + |b| == |s| && a != [] && b != [] && !tagChar(' ')
    requires s[i] == '#' && s[i + 1..i + 1 + |a|] == a && s[i + 1 + |a|] == ' ' && s[i + 2 + |a|] == '#' && s[i + 3 + |a|..] == b
    requires (forall k :: 0 <= k < |a| ==> tagChar(a[k])) && (forall k :: 0 <= k < |b| ==> tagChar(b[k]))
    ensures TagsFrom(s, i, tagChar) == [a, b]
  {
    var e := i + 1 + |a|;
    WordTag(s, i, a, tagChar);
    TagsSkipPlain(s, e, e + 1, tagChar);
    LastWordTag(s, e + 1, b, tagChar);
    assert [a] + [b] == [a, b];
  }

  /** A '#' and a word of tag characters at the very end are the last tag. */
  lemma {:induction false} LastWordTag(s: string, i: nat, b: string, tagChar: char -> bool)
    requires i + 1 + |b| == |s| && s[i] == '#' && s[i + 1..] == b && b != []
    requires forall k :: 0 <= k < |b| ==> tagChar(b[k])
    ensures TagsFrom(s, i, tagChar) == [b]
  {
    WordTag(s, i, b, tagChar);
    assert TagsFrom(s, |s|, tagChar) == [];
  }

  /** `s.replace(/^#/, "")`. */
  function StripLeadingHash(s: string): (r: string)
    ensures s != [] && s[0] == '#' ==> r == s[1..]
    ensures s == [] || s[0] != '#' ==> r == s
  {
    if s != [] && s[0] == '#' then s[1..] else s
  }

  /** `normalizeHashtag`: one leading '#' removed, trimmed, then lower-cased by `lower`
      (`String.prototype.toLowerCase`). */
  function NormalizeHashtag(tag: string, lower: string -> string): string {
    lower(Trim(StripLeadingHash(tag)))
  }

  /** A topic name and the same name written as a tag, with a '#' and padding inside
      it, normalise alike: to the lower case of the bare word. */
  lemma {:induction false} NormalizeHashtagOfPaddedTag(w1: string, t: string, w2: string, lower: string -> string)
    requires AllWhiteSpace(w1) && AllWhiteSpace(w2) && Trimmed(t) && t != [] && t[0] != '#'
    ensures NormalizeHashtag("#" + w1 + t + w2, lower) == lower(t)
    ensures NormalizeHashtag(t, lower) == lower(t)
  {
    assert ("#" + w1 + t + w2)[1..] == w1 + t + w2;
    TrimIgnoresPadding(w1, t, w2);
    TrimOfTrimmed(t);
  }

  /** Only one '#' goes: of a doubled mark the second one stays. */
  lemma {:induction false} NormalizeHashtagKeepsSecondHash(t: string, lower: string -> string)
    requires Trimmed(t) && t != [] && t[0] == '#'
    ensures NormalizeHashtag("#" + t, lower) == lower(t)
  {
    assert ("#" + t)[1..] == t;
    TrimOfTrimmed(t);
  }

  /** The mark goes only when it comes first: after leading white space it stays. */
  lemma {:induction false} NormalizeHashtagKeepsPaddedHash(w: string, t: string, lower: string -> string)
    requires AllWhiteSpace(w) && w != [] && Trimmed(t) && t != []
    ensures NormalizeHashtag(w + t, lower) == lower(t)
  {
    assert (w + t)[0] == w[0];
    assert StripLeadingHash(w + t) == w + t;
    TrimIgnoresPadding(w, t, []);
    assert w + t + [] == w + t;
  }

  /** The index of the first occurrence of `x`. */
  function FirstIndex(xs: seq<string>, x: string): (i: nat)
    requires x in xs
    ensures i < |xs| && xs[i] == x && x !in xs[..i]
  {
    if xs[0] == x then 0 else 1 + FirstIndex(xs[1..], x)
  }

  lemma {:induction false} FirstIndexInPrefix(xs: seq<string>, n: nat, x: string)
    requires n <= |xs| && x in xs[..n]
    ensures FirstIndex(xs, x) == FirstIndex(xs[..n], x)
  {
    if xs[0] != x {
      assert xs[..n][0] == xs[0];
      assert xs[1..][..n - 1] == xs[..n][1..];
      FirstIndexInPrefix(xs[1..], n - 1, x);
    }
  }

  lemma {:induction false} FirstIndexPastPrefix(xs: seq<string>, n: nat, x: string)
    requires n <= |xs| && x in xs && x !in xs[..n]
    ensures FirstIndex(xs, x) >= n
  {
    if n > 0 {
      assert xs[..n][0] == xs[0];
      assert xs[1..][..n - 1] == xs[..n][1..];
      FirstIndexPastPrefix(xs[1..], n - 1, x);
    }
  }

  predicate NoDuplicates(xs: seq<string>) {
    forall i, j :: 0 <= i < j < |xs| ==> xs[i] != xs[j]
  }

  /** `Array.from(new Set(xs))`: every value once, in the order of its first occurrence. */
  function Dedupe(xs: seq<string>): (r: seq<string>)
    ensures forall x :: x in r <==> x in xs
    ensures NoDuplicates(r)
    ensures |r| <= |xs|
    ensures forall i, j :: 0 <= i < j < |r| ==> FirstIndex(xs, r[i]) < FirstIndex(xs, r[j])
    decreases |xs|
  {
    if xs == [] then []
    else
      var init, last := xs[..|xs| - 1], xs[|xs| - 1];
      var r := Dedupe(init);
      assert xs == init + [last];
      assert forall x :: x in r ==> FirstIndex(xs, x) == FirstIndex(init, x) by {
        forall x | x in r
          ensures FirstIndex(xs, x) == FirstIndex(init, x)
        {
          FirstIndexInPrefix(xs, |xs| - 1, x);
        }
      }
      if last in r then r
      else
        assert FirstIndex(xs, last) == |xs| - 1 by {
          FirstIndexPastPrefix(xs, |xs| - 1, last);
        }
        r + [last]
  }

  /** A list without repeats is its own de-duplication. */
  lemma {:induction false} DedupeOfDistinct(xs: seq<string>)
    requires NoDuplicates(xs)
    ensures Dedupe(xs) == xs
    decreases |xs|
  {
    if xs != [] {
      var init, last := xs[..|xs| - 1], xs[|xs| - 1];
      assert NoDuplicates(init) by {
        forall i, j | 0 <= i < j < |init| ensures init[i] != init[j] {
          assert init[i] == xs[i] && init[j] == xs[j];
        }
      }
      DedupeOfDistinct(init);
      assert last !in init by {
        forall j | 0 <= j < |init| ensures init[j] != last {
          assert init[j] == xs[j];
        }
      }
      LastSplit(xs);
    }
  }

  /** Values already seen add nothing: after a list without repeats, `ys` drawn from it
      leaves the de-duplication unchanged. */
  lemma {:induction false} DedupeAbsorbs(xs: seq<string>, ys: seq<string>)
    requires NoDuplicates(xs) && forall k :: 0 <= k < |ys| ==> ys[k] in xs
    ensures Dedupe(xs + ys) == xs
    decreases |ys|
  {
    if ys == [] {
      assert xs + ys == xs;
      DedupeOfDistinct(xs);
    } else {
      var init := ys[..|ys| - 1];
      DedupeAbsorbs(xs, init);
      assert (xs + ys)[..|xs + ys| - 1] == xs + init;
    }
  }

  /** What comes later never reorders what came first: de-duplicating `xs + ys` starts
      with the de-duplication of `xs`. */
  lemma {:induction false} DedupeKeepsPrefix(xs: seq<string>, ys: seq<string>)
    ensures |Dedupe(xs)| <= |Dedupe(xs + ys)| && Dedupe(xs + ys)[..|Dedupe(xs)|] == Dedupe(xs)
    decreases |ys|
  {
    if ys == [] {
      assert xs + ys == xs;
    } else {
      var init := ys[..|ys| - 1];
      DedupeKeepsPrefix(xs, init);
      assert (xs + ys)[..|xs + ys| - 1] == xs + init;
    }
  }

  lemma {:induction false} LastSplit(xs: seq<string>)
    requires xs != []
    ensures xs == xs[..|xs| - 1] + [xs[|xs| - 1]]
  {
  }

  /** Values at or above this are already milliseconds; below it, seconds. */
  const MillisecondsFloor: real := 1000.0

  /** `normalizeDurationMs`; `Math.round` on finite values, None standing for `undefined`
      and for `null`. */
  function NormalizeDurationMs(value: Option<real>): (r: Option<int>)
    ensures r.None? <==> value.None?
    ensures value.Some? && value.value >= MillisecondsFloor ==> r.value == Round(value.value)
    ensures value.Some? && value.value < MillisecondsFloor ==> r.value == Round(value.value * 1000.0)
  {
    match value
    case None => None
    case Some(v) => if v >= MillisecondsFloor then Some(Round(v)) else Some(Round(v * 1000.0))
  }

  /** Whole seconds and the same duration in milliseconds normalise alike. */
  lemma {:induction false} DurationUnitsAgree(seconds: int)
    requires 1 <= seconds < 1000
    ensures NormalizeDurationMs(Some(seconds as real)) == NormalizeDurationMs(Some((seconds * 1000) as real))
    ensures NormalizeDurationMs(Some(seconds as real)) == Some(seconds * 1000)
  {
    assert (seconds * 1000) as real == seconds as real * 1000.0;
  }

  /** A video of at least one second has at least 1000 ms, whichever unit it came in. */
  lemma {:induction false} DurationAtLeastOneSecond(value: real)
    requires value >= 1.0
    ensures NormalizeDurationMs(Some(value)).value >= 1000
  {
  }
}
