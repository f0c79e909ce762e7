/**
  The summary step of the podcast analyzer (youtube_podcast_analyzer.py,
  `summarize_transcript`, `summarize_with_gemini`, `summarize_with_gpt` and
  `extract_key_topics`): the too-short gate, the method dispatch, the
  truncation before a provider call, the extractive "first sentences"
  fallback, the provider error handling and the key-topic count.

  Each provider call is an input (`ProviderCall`): it raised before the
  transcript was truncated (configuring the client or the model), raised
  afterwards (the request itself or reading its reply), or replied with a
  text.
 */
module Summarize {
  import opened Common
  import StableSort

  datatype ProviderCall = SetupRaised(message: string) | CallRaised(message: string) | Responded(text: string)

  /** The `summarization` settings: the method (absent: "gemini"), the API
      key ("" when absent) and whether each provider library is installed.
      `approach` holds the settings key `"method"`, whose name is a Dafny
      keyword. */
  datatype SummarySettings = SummarySettings(
    approach: Option<string>,
    apiKey: string,
    geminiInstalled: bool,
    openaiInstalled: bool)

  const MinLength: nat := 50
  const GeminiLimit: nat := 30000
  const GptLimit: nat := 12000
  const TopicCount: nat := 5
  const TooShortMessage: string := "Transcript too short to summarize."
  const EmptyResponseMessage: string := "Summary generation returned empty response."
  /** Gemini is tried once (`max_retries = 1`). */
  const GeminiMaxRetries: nat := 1
  const GeminiRateLimitedMessage: string :=
    "Error: Rate limited after " + NatToString(GeminiMaxRetries) + " attempts during summarization. Please try again later."

  /** `not transcript or len(transcript.strip()) < 50`. */
  predicate TooShort(t: string)
  {
    t == "" || |Strip(t)| < MinLength
  }

  // ---------------------------------------------------------------------
  // Truncation and the extractive fallback

  /** `t[:limit] + "..."` when `t` is longer than `limit`. */
  function Truncate(t: string, limit: nat): string
  {
    if |t| > limit then t[..limit] + "..." else t
  }

  /** `". ".join(t.split(".")[:n]) + "..."`. */
  function Fallback(t: string, n: nat): string
  {
    Join(Take(SplitOn(t, '.'), n), ". ") + "..."
  }

  function CountChar(s: string, c: char): nat
  {
    if s == [] then 0 else (if s[0] == c then 1 else 0) + CountChar(s[1..], c)
  }

  // ---------------------------------------------------------------------
  // The providers and the dispatch

  /** The rate-limit test of the Gemini handler. */
  predicate IsQuotaError(message: string)
  {
    || Contains(message, "429")
    || Contains(message, "Too Many Requests")
    || Contains(Lower(message), "rate limit")
    || Contains(Lower(message), "quota")
    || Contains(message, "RESOURCE_EXHAUSTED")
  }

  /** `summarize_with_gemini`: one attempt (`max_retries = 1`), so a
      rate-limit error is reported at once and never retried. */
  function SummarizeWithGemini(t: string, apiKey: string, installed: bool, call: ProviderCall): string
  {
    if apiKey == "" || !installed then Fallback(t, 5)
    else
      match call
      case SetupRaised(message) =>
        if IsQuotaError(message) then GeminiRateLimitedMessage else Fallback(t, 5)
      case CallRaised(message) =>
        if IsQuotaError(message) then GeminiRateLimitedMessage else Fallback(Truncate(t, GeminiLimit), 5)
      case Responded(text) =>
        var summary := Strip(text);
        if summary != "" then summary else EmptyResponseMessage
  }

  /** `summarize_with_gpt`: every error falls back to the first five
      sentences. */
  function SummarizeWithGpt(t: string, apiKey: string, installed: bool, call: ProviderCall): string
  {
    if apiKey == "" || !installed then Fallback(t, 5)
    else
      match call
      case SetupRaised(_) => Fallback(t, 5)
      case CallRaised(_) => Fallback(Truncate(t, GptLimit), 5)
      case Responded(text) => Strip(text)
  }

  /** `summarize_transcript`; `gemini` and `gpt` are what the two providers
      would do when called. */
  function SummarizeTranscript(t: string, settings: SummarySettings, gemini: ProviderCall, gpt: ProviderCall): string
  {
    if TooShort(t) then TooShortMessage
    else
      var m := if settings.approach.Some? then settings.approach.value else "gemini";
      if m == "gemini" then SummarizeWithGemini(t, settings.apiKey, settings.geminiInstalled, gemini)
      else if m == "openai_gpt" then SummarizeWithGpt(t, settings.apiKey, settings.openaiInstalled, gpt)
      else Fallback(t, 3)
  }

  // ---------------------------------------------------------------------
  // Key topics

  const TopicStripChars: set<char> := {'.', ',', '!', '?', ';', ':'}

  /** A word that is counted: it starts with an upper-case letter and is
      longer than three characters before stripping. */
  predicate Qualifies(w: string)
  {
    w != "" && IsUpperAscii(w[0]) && |w| > 3
  }

  /** `[w.strip(".,!?;:") for w in words if w and w[0].isupper() and len(w) > 3]`. */
  function Capitalized(words: seq<string>): (caps: seq<string>)
    ensures |caps| <= |words|
  {
    if words == [] then []
    else
      (if Qualifies(words[0]) then [StripChars(words[0], TopicStripChars)] else [])
      + Capitalized(words[1..])
  }

  function Occurrences(xs: seq<string>, x: string): nat
  {
    if xs == [] then 0 else (if xs[0] == x then 1 else 0) + Occurrences(xs[1..], x)
  }

  predicate NoDup<T(==)>(s: seq<T>)
  {
    forall i, j :: 0 <= i < j < |s| ==> s[i] != s[j]
  }

  /** The distinct elements in order of first occurrence (the key order of a
      `Counter`). */
  function Distinct(xs: seq<string>): (d: seq<string>)
    ensures NoDup(d)
    ensures forall x :: x in d <==> x in xs
  {
    if xs == [] then []
    else
      var d := Distinct(xs[..|xs| - 1]);
      var x := xs[|xs| - 1];
      assert forall y :: y in xs <==> y in xs[..|xs| - 1] || y == x by {
        assert xs == xs[..|xs| - 1] + [x];
      }
      if x in d then d else d + [x]
  }

  function CountKey(xs: seq<string>): string -> int
  {
    x => Occurrences(xs, x)
  }

  /** `[topic for topic, count in Counter(xs).most_common(n)]`: the distinct
      elements by count, highest first, ties in first-occurrence order. */
  function MostCommon(xs: seq<string>, n: nat): seq<string>
  {
    Take(StableSort.Sort(Distinct(xs), CountKey(xs)), n)
  }

  /** `extract_key_topics`. */
  function KeyTopics(t: string): seq<string>
  {
    if TooShort(t) then [] else MostCommon(Capitalized(SplitWhitespace(t)), TopicCount)
  }

  // ---------------------------------------------------------------------
  // Properties: gates and dispatch

  /** A transcript that is empty or whose stripped length is below 50 gets
      the too-short message whatever the settings, and no provider result is
      used; otherwise the method picks the provider, and an unknown method
      gives the first three sentences. */
  lemma {:induction false} SummarizeDispatch(t: string, settings: SummarySettings, gemini: ProviderCall, gpt: ProviderCall)
    ensures TooShort(t) ==> SummarizeTranscript(t, settings, gemini, gpt) == TooShortMessage
    ensures !TooShort(t) && (settings.approach.None? || settings.approach == Some("gemini")) ==>
      SummarizeTranscript(t, settings, gemini, gpt) == SummarizeWithGemini(t, settings.apiKey, settings.geminiInstalled, gemini)
    ensures !TooShort(t) && settings.approach == Some("openai_gpt") ==>
      SummarizeTranscript(t, settings, gemini, gpt) == SummarizeWithGpt(t, settings.apiKey, settings.openaiInstalled, gpt)
    ensures !TooShort(t) && settings.approach.Some? && settings.approach.value != "gemini" && settings.approach.value != "openai_gpt" ==>
      SummarizeTranscript(t, settings, gemini, gpt) == Fallback(t, 3)
  {
  }

  /** The Gemini path: without a key or library, the first five sentences;
      a rate-limit-class error gives the rate-limit message and no fallback;
      any other error gives the first five sentences of the transcript as it
      was when the error happened (truncated if the call had been made); a
      reply is used stripped. The result is never empty. */
  lemma {:induction false} GeminiOutcome(t: string, apiKey: string, installed: bool, call: ProviderCall)
    ensures var r := SummarizeWithGemini(t, apiKey, installed, call);
      && r != ""
      && (apiKey == "" || !installed ==> r == Fallback(t, 5))
      && (apiKey != "" && installed && !call.Responded? && IsQuotaError(call.message) ==> r == GeminiRateLimitedMessage)
      && (apiKey != "" && installed && call.SetupRaised? && !IsQuotaError(call.message) ==> r == Fallback(t, 5))
      && (apiKey != "" && installed && call.CallRaised? && !IsQuotaError(call.message) ==>
            r == Fallback(Truncate(t, GeminiLimit), 5))
      && (apiKey != "" && installed && call.Responded? ==>
            r == (if Strip(call.text) != "" then Strip(call.text) else EmptyResponseMessage))
  {
    var r := SummarizeWithGemini(t, apiKey, installed, call);
    FallbackNonEmpty(t, 5);
    FallbackNonEmpty(Truncate(t, GeminiLimit), 5);
  }

  /** The GPT path never reports an error: without a key or library, and on
      every error, it gives the first five sentences (of the truncated
      transcript once truncation has happened). */
  lemma {:induction false} GptOutcome(t: string, apiKey: string, installed: bool, call: ProviderCall)
    ensures var r := SummarizeWithGpt(t, apiKey, installed, call);
      && (apiKey == "" || !installed || call.SetupRaised? ==> r == Fallback(t, 5))
      && (apiKey != "" && installed && call.CallRaised? ==> r == Fallback(Truncate(t, GptLimit), 5))
      && (apiKey != "" && installed && call.Responded? ==> r == Strip(call.text))
  {
  }

  lemma {:induction false} FallbackNonEmpty(t: string, n: nat)
    ensures |Fallback(t, n)| >= 3
  {
  }

  /** Truncation keeps a short transcript and cuts a long one to its first
      `limit` characters followed by "...". */
  lemma {:induction false} TruncateSpec(t: string, limit: nat)
    ensures var r := Truncate(t, limit);
      && |r| <= limit + 3
      && (|t| <= limit ==> r == t)
      && (|t| > limit ==> |r| == limit + 3 && r[..limit] == t[..limit] && r[limit..] == "...")
  {
  }

  // ---------------------------------------------------------------------
  // Properties: the fallback is the first sentences

  lemma {:induction false} CountCharAppend(x: string, y: string, c: char)
    ensures CountChar(x + y, c) == CountChar(x, c) + CountChar(y, c)
  {
    if x != [] {
      assert (x + y)[1..] == x[1..] + y;
      CountCharAppend(x[1..], y, c);
    } else {
      assert x + y == y;
    }
  }

  lemma {:induction false} CountCharNone(s: string, c: char)
    requires c !in s
    ensures CountChar(s, c) == 0
  {
    if s != [] {
      assert s[0] in s;
      assert forall d :: d in s[1..] ==> d in s;
      CountCharNone(s[1..], c);
    }
  }

  /** Joining two non-empty lists is joining their joins. */
  lemma {:induction false} JoinAppend(a: seq<string>, b: seq<string>, sep: string)
    requires a != [] && b != []
    ensures Join(a + b, sep) == Join(a, sep) + sep + Join(b, sep)
    decreases |a|
  {
    var ab := a + b;
    assert |ab| >= 2 && ab[0] == a[0];
    assert Join(ab, sep) == a[0] + sep + Join(ab[1..], sep);
    if |a| == 1 {
      assert ab[1..] == b;
    } else {
      var x, y := Join(a[1..], sep), Join(b, sep);
      assert ab[1..] == a[1..] + b;
      JoinAppend(a[1..], b, sep);
      assert Join(a, sep) == a[0] + sep + x;
      assert a[0] + sep + (x + sep + y) == (a[0] + sep + x) + sep + y;
    }
  }

  /** Joining separator-free parts with the separator character adds one
      separator per gap. */
  lemma {:induction false} JoinCount(parts: seq<string>, c: char)
    requires parts != []
    requires forall p :: p in parts ==> c !in p
    ensures CountChar(Join(parts, [c]), c) == |parts| - 1
  {
    assert parts[0] in parts;
    CountCharNone(parts[0], c);
    if |parts| > 1 {
      assert forall p :: p in parts[1..] ==> p in parts;
      JoinCount(parts[1..], c);
      CountCharAppend(parts[0], [c], c);
      CountCharAppend(parts[0] + [c], Join(parts[1..], [c]), c);
      assert CountChar([c], c) == 1 by {
        assert [c][1..] == [];
      }
    }
  }

  /** The first `n` `.`-segments, joined back with ".", are the part of `t`
      before its `n`-th full stop (all of `t` when it has fewer), and hold
      `n - 1` full stops or all of them. */
  lemma {:induction false} FirstSentences(t: string, n: nat)
    requires n >= 1
    ensures var segs := Take(SplitOn(t, '.'), n);
      var r := Join(segs, ".");
      && |segs| == Min(n, CountChar(t, '.') + 1)
      && (forall s :: s in segs ==> '.' !in s)
      && |r| <= |t| && r == t[..|r|]
      && (|r| == |t| || t[|r|] == '.')
      && CountChar(r, '.') == Min(n - 1, CountChar(t, '.'))
  {
    var parts := SplitOn(t, '.');
    var segs := Take(parts, n);
    SplitJoin(t, '.');
    JoinCount(parts, '.');
    assert forall s :: s in segs ==> s in parts;
    JoinCount(segs, '.');
    if |segs| < |parts| {
      assert |segs| <= |parts|;
      var rest := parts[|segs|..];
      assert parts == segs + rest;
      JoinAppend(segs, rest, ".");
      var r := Join(segs, ".");
      assert t == r + "." + Join(rest, ".");
      assert t[..|r|] == r;
    } else {
      assert segs == parts;
    }
  }

  /** The fallback is the first `n` sentences of `t` (as `FirstSentences`
      describes them) joined by ". ", followed by "..."; a transcript
      without a full stop comes back whole with "..." appended. */
  lemma {:induction false} FallbackSpec(t: string, n: nat)
    requires n >= 1
    ensures var segs := Take(SplitOn(t, '.'), n);
      && Fallback(t, n) == Join(segs, ". ") + "..."
      && Join(segs, ".") <= t
      && ('.' !in t ==> Fallback(t, n) == t + "...")
  {
    FirstSentences(t, n);
    if '.' !in t {
      CountCharNone(t, '.');
      var segs := Take(SplitOn(t, '.'), n);
      assert |segs| == 1;
      var r := Join(segs, ".");
      assert r == segs[0];
    }
  }

  // ---------------------------------------------------------------------
  // Properties: key topics

  /** Every counted token comes from a qualifying word, stripped of
      `.,!?;:` at both ends, and keeps that word's upper-case first letter. */
  lemma {:induction false} CapitalizedSpec(words: seq<string>)
    ensures forall x :: x in Capitalized(words) <==>
      exists w :: w in words && Qualifies(w) && x == StripChars(w, TopicStripChars)
    ensures forall x :: x in Capitalized(words) ==> x != "" && IsUpperAscii(x[0])
  {
    if words != [] {
      CapitalizedSpec(words[1..]);
      var w := words[0];
      if Qualifies(w) {
        StripFromCapital(w);
      }
      var head := if Qualifies(w) then [StripChars(w, TopicStripChars)] else [];
      assert Capitalized(words) == head + Capitalized(words[1..]);
      assert forall v :: v in words <==> v == w || v in words[1..] by {
        assert words == [w] + words[1..];
      }
    }
  }

  lemma {:induction false} StripFromCapital(w: string)
    requires Qualifies(w)
    ensures var x := StripChars(w, TopicStripChars); x != "" && x[0] == w[0]
  {
    assert w[0] !in TopicStripChars;
    assert SkipIn(w, TopicStripChars, 0) == 0;
    StripCharsSpec(w, TopicStripChars);
  }

  /** `a` occurs in `xs` before `b` first does. */
  predicate OccursFirst(xs: seq<string>, a: string, b: string)
  {
    exists k :: 0 <= k < |xs| && xs[k] == a && b !in xs[..k + 1]
  }

  /** The distinct elements come in order of first occurrence: for each
      pair, the earlier one occurs before the later one first does. */
  lemma {:induction false} DistinctOrder(xs: seq<string>)
    ensures forall i, j :: 0 <= i < j < |Distinct(xs)| ==> OccursFirst(xs, Distinct(xs)[i], Distinct(xs)[j])
  {
    if xs != [] {
      var init, x := xs[..|xs| - 1], xs[|xs| - 1];
      DistinctOrder(init);
      var d0 := Distinct(init);
      var d := Distinct(xs);
      assert d == d0 || d == d0 + [x];
      forall i, j | 0 <= i < j < |d| ensures OccursFirst(xs, d[i], d[j]) {
        if j < |d0| {
          assert d[i] == d0[i] && d[j] == d0[j];
          assert 0 <= i < j < |d0|;
          assert OccursFirst(init, d0[i], d0[j]);
          var k :| 0 <= k < |init| && init[k] == d0[i] && d0[j] !in init[..k + 1];
          assert xs[..k + 1] == init[..k + 1];
          assert xs[k] == d[i];
        } else {
          assert d == d0 + [x] && d[j] == x && x !in d0;
          assert d[i] == d0[i];
          assert d[i] in init;
          var k :| 0 <= k < |init| && init[k] == d[i];
          assert forall y :: y in xs[..k + 1] ==> y in init by {
            assert xs[..k + 1] == init[..k + 1];
          }
          assert xs[k] == d[i];
        }
      }
    }
  }

  lemma {:induction false} NoDupMultiset<T>(s: seq<T>, x: T)
    requires NoDup(s)
    ensures multiset(s)[x] <= 1
  {
    if s != [] {
      var init, last := s[..|s| - 1], s[|s| - 1];
      assert s == init + [last];
      assert NoDup(init);
      NoDupMultiset(init, x);
      forall i | 0 <= i < |init| ensures init[i] != last {
        assert s[i] == init[i];
      }
      assert last !in init;
    }
  }

  lemma {:induction false} MultisetNoDup<T>(s: seq<T>)
    requires forall x :: multiset(s)[x] <= 1
    ensures NoDup(s)
  {
    forall i, j | 0 <= i < j < |s| ensures s[i] != s[j] {
      assert s == s[..j] + [s[j]] + s[j + 1..];
      assert s[i] in s[..j];
      assert multiset(s)[s[j]] == multiset(s[..j])[s[j]] + 1 + multiset(s[j + 1..])[s[j]];
    }
  }

  /** The first `n` of a stable sort of distinct elements are distinct and
      come from the input. */
  lemma {:induction false} TopDistinct<T>(d: seq<T>, key: T -> int, n: nat)
    requires NoDup(d)
    ensures var top := Take(StableSort.Sort(d, key), n);
      && |top| == Min(n, |d|)
      && NoDup(top)
      && forall x :: x in top ==> x in d
  {
    var sorted := StableSort.Sort(d, key);
    var top := Take(sorted, n);
    StableSort.SortMultiset(d, key);
    assert |sorted| == |d| by {
      assert |multiset(sorted)| == |multiset(d)|;
    }
    forall x ensures multiset(sorted)[x] <= 1 {
      NoDupMultiset(d, x);
    }
    MultisetNoDup(sorted);
    forall x | x in top ensures x in d {
      assert x in sorted;
      assert x in multiset(sorted);
    }
  }

  /** Nothing the first `n` leave out has a higher key than anything they
      keep, and they are in non-increasing key order. */
  lemma {:induction false} TopMaximal<T>(d: seq<T>, key: T -> int, n: nat)
    ensures var top := Take(StableSort.Sort(d, key), n);
      && StableSort.SortedDesc(top, key)
      && forall x, y :: x in top && y in d && y !in top ==> key(x) >= key(y)
  {
    var sorted := StableSort.Sort(d, key);
    var top := Take(sorted, n);
    StableSort.SortSorted(d, key);
    StableSort.SortMultiset(d, key);
    StableSort.PrefixIsTop(sorted, key, |top|);
    forall x, y | x in top && y in d && y !in top ensures key(x) >= key(y) {
      assert y in multiset(d);
      var i :| 0 <= i < |top| && top[i] == x;
      var j :| 0 <= j < |sorted| && sorted[j] == y;
      assert sorted[i] == x;
    }
  }

  /** `most_common(n)`: up to `n` distinct elements of `xs` (all of them
      when there are fewer), highest count first; nothing left out occurs
      more often than anything kept; equal counts keep first-occurrence
      order. */
  lemma {:induction false} MostCommonSpec(xs: seq<string>, n: nat)
    ensures var d := Distinct(xs);
      var key := CountKey(xs);
      var top := MostCommon(xs, n);
      && |top| == Min(n, |d|)
      && NoDup(top)
      && (forall x :: x in top ==> x in xs)
      && StableSort.SortedDesc(top, key)
      && (forall x, y :: x in top && y in xs && y !in top ==> Occurrences(xs, x) >= Occurrences(xs, y))
      && (forall k :: StableSort.WithKey(top, key, k) <= StableSort.WithKey(d, key, k))
  {
    var d := Distinct(xs);
    var key := CountKey(xs);
    TopDistinct(d, key, n);
    TopMaximal(d, key, n);
    var top := MostCommon(xs, n);
    StableSort.PrefixStable(d, key, |top|);
    forall x, y | x in top && y in xs && y !in top ensures Occurrences(xs, x) >= Occurrences(xs, y) {
      assert key(x) >= key(y);
    }
  }

  /** The key topics: none for a too-short transcript; otherwise
      `most_common(5)` of the counted tokens, each of which is non-empty and
      starts with an upper-case letter. */
  lemma {:induction false} KeyTopicsSpec(t: string)
    ensures TooShort(t) ==> KeyTopics(t) == []
    ensures !TooShort(t) ==>
      var caps := Capitalized(SplitWhitespace(t));
      && |KeyTopics(t)| == Min(TopicCount, |Distinct(caps)|)
      && forall x :: x in KeyTopics(t) ==> x in caps && x != "" && IsUpperAscii(x[0])
  {
    if !TooShort(t) {
      var caps := Capitalized(SplitWhitespace(t));
      MostCommonSpec(caps, TopicCount);
      CapitalizedSpec(SplitWhitespace(t));
    }
  }
}
