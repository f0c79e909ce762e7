/**
  Channel discovery and the per-video pipeline of the podcast analyzer
  (youtube_podcast_analyzer.py, `fetch_podcasts_from_channel` and
  `calculate_stats`): the `/videos` URL rule, the bounded scan for this
  week's videos, the transcript and summary decision for each match, and
  the summary counters.

  What yt-dlp reports is an input: the flat channel listing (`Listing`), the
  full metadata of each listed entry (`MetaFetch`), and for each match what
  transcription and summarization returned (`TranscriptOutcome`,
  `SummaryOutcome`). Times are whole seconds since 1970-01-01 UTC.
 */
module Discovery {
  import opened Common
  import UploadDates
  import Summarize
  import Subtitles

  const MaxExamined: nat := 20
  const MaxMatches: nat := 3
  const WatchPrefix: string := "https://www.youtube.com/watch?v="
  const TranscriptErrorPrefix: string := "Error extracting transcript: "
  const SummaryErrorPrefix: string := "Error generating summary: "
  const TranscriptMissing: string := "Transcript not available"
  const NoTranscriptSummary: string := "Summary not available - no transcript"
  const ApiErrorSummary: string := "Summary not available - API error"

  // ---------------------------------------------------------------------
  // The channel URL

  /** A handle (`/@`) or channel-id (`/channel/`) URL gets its trailing
      slashes removed and `/videos` appended; any other URL is used as it
      is. */
  function ChannelVideosUrl(url: string): string
  {
    if Contains(url, "/@") || Contains(url, "/channel/") then StripCharsEnd(url, {'/'}) + "/videos" else url
  }

  // ---------------------------------------------------------------------
  // The listing

  /** An element of the listing's `entries`: something other than a
      non-empty dict, or a dict with its `id` (`None` when absent or null). */
  datatype FlatEntry = NotADict | FlatEntry(id: Option<string>)

  /** What flat extraction of the channel page gave: it raised; it gave
      something other than a dict (`None` included); or a dict with its
      `entries` (`[]` when absent or null; `None` elements kept) and its own
      `id` (`None` when the key is absent, `Some(None)` when it is null). */
  datatype Listing =
    | ListingRaised(message: string)
    | NoListing
    | Listing(entries: seq<Option<FlatEntry>>, ownId: Option<Option<string>>)

  /** The entries to examine: the listed ones without the nulls, or, when
      none is left and the listing has an `id` of its own, the listing
      itself as a single video. */
  function Entries(l: Listing): seq<FlatEntry>
  {
    match l
    case Listing(es, ownId) =>
      var present := Collect(es);
      if present == [] && ownId.Some? then [FlatEntry(ownId.value)] else present
    case _ => []
  }

  // ---------------------------------------------------------------------
  // Matching one entry

  /** The metadata fields the pipeline reads (`None` when absent or null). */
  datatype VideoMeta = VideoMeta(
    id: Option<string>,
    title: Option<string>,
    uploadDate: Option<string>,
    timestamp: Option<int>,
    duration: Option<int>,
    viewCount: Option<int>,
    webpageUrl: Option<string>,
    url: Option<string>)

  /** Fetching an entry's full metadata: it raised, gave nothing usable
      (`None` or not a dict), or gave the metadata. */
  datatype MetaFetch = MetaRaised(message: string) | MetaMissing | Metadata(meta: VideoMeta)

  /** A video of the week with its title and upload time. */
  datatype Match = Match(meta: VideoMeta, title: string, published: int)

  predicate Truthy(s: Option<string>)
  {
    s.Some? && s.value != ""
  }

  /** What one examined entry contributes: a match when it has an id, its
      metadata has a title and a readable upload time, and that time lies in
      `[start, end]`. */
  function MatchOf(e: FlatEntry, f: MetaFetch, start: int, end: int): (r: Option<Match>)
    ensures r.Some? ==> e.FlatEntry? && Truthy(e.id) && f.Metadata? && r.value.meta == f.meta
    ensures r.Some? ==> Truthy(f.meta.title) && r.value.title == f.meta.title.value && start <= r.value.published <= end
    ensures r.Some? ==> UploadDates.UploadTime(f.meta.uploadDate, f.meta.timestamp) == Some(r.value.published)
    ensures f.Metadata? ==>
      var t := UploadDates.UploadTime(f.meta.uploadDate, f.meta.timestamp);
      (e.FlatEntry? && Truthy(e.id) && Truthy(f.meta.title) && t.Some? && start <= t.value <= end ==>
        r == Some(Match(f.meta, f.meta.title.value, t.value)))
  {
    if e.NotADict? || !Truthy(e.id) || !f.Metadata? then None
    else
      var m := f.meta;
      var t := UploadDates.UploadTime(m.uploadDate, m.timestamp);
      if !Truthy(m.title) || t.None? || t.value < start || t.value > end then None
      else Some(Match(m, m.title.value, t.value))
  }

  function Option2Seq<T>(o: Option<T>): seq<T>
  {
    if o.Some? then [o.value] else []
  }

  /** The present values of `xs`, in order. */
  function Collect<T>(xs: seq<Option<T>>): (r: seq<T>)
    ensures |r| <= |xs|
  {
    if xs == [] then [] else Collect(xs[..|xs| - 1]) + Option2Seq(xs[|xs| - 1])
  }

  lemma {:induction false} CollectStep<T>(xs: seq<Option<T>>, i: nat)
    requires i < |xs|
    ensures Collect(xs[..i + 1]) == Collect(xs[..i]) + Option2Seq(xs[i])
  {
    assert xs[..i + 1][..i] == xs[..i];
  }

  /** Collecting distributes over concatenation. */
  lemma {:induction false} CollectAppend<T>(a: seq<Option<T>>, b: seq<Option<T>>)
    ensures Collect(a + b) == Collect(a) + Collect(b)
    decreases |b|
  {
    if b == [] {
      assert a + b == a;
    } else {
      var n := |b| - 1;
      assert (a + b)[..|a + b| - 1] == a + b[..n];
      CollectAppend(a, b[..n]);
    }
  }

  /** Everything collected is present in `xs`. */
  lemma {:induction false} CollectSources<T>(xs: seq<Option<T>>)
    ensures forall x :: x in Collect(xs) ==> exists i :: 0 <= i < |xs| && xs[i] == Some(x)
  {
    if xs != [] {
      var n := |xs| - 1;
      CollectSources(xs[..n]);
      forall x | x in Collect(xs) ensures exists i :: 0 <= i < |xs| && xs[i] == Some(x) {
        if x in Collect(xs[..n]) {
          var i :| 0 <= i < n && xs[..n][i] == Some(x);
          assert xs[i] == Some(x);
        } else {
          assert xs[n] == Some(x);
        }
      }
    }
  }

  /** Collecting keeps exactly the present values: the listing without its
      null entries. */
  lemma {:induction false} CollectMembers<T>(xs: seq<Option<T>>)
    ensures forall x :: x in Collect(xs) <==> Some(x) in xs
  {
    if xs != [] {
      var n := |xs| - 1;
      CollectMembers(xs[..n]);
      assert xs == xs[..n] + [xs[n]];
      forall x ensures x in Collect(xs) <==> Some(x) in xs {
        if Some(x) in xs && Some(x) != xs[n] {
          assert Some(x) in xs[..n];
        }
      }
    }
  }

  /** What each entry contributes. */
  function MatchesOf(es: seq<FlatEntry>, fs: seq<MetaFetch>, start: int, end: int): (r: seq<Option<Match>>)
    requires |fs| == |es|
    ensures |r| == |es|
    ensures forall i :: 0 <= i < |es| ==> r[i] == MatchOf(es[i], fs[i], start, end)
  {
    seq(|es|, i requires 0 <= i < |es| => MatchOf(es[i], fs[i], start, end))
  }

  /** The first three matches among the first twenty entries. */
  function Discovered(es: seq<FlatEntry>, fs: seq<MetaFetch>, start: int, end: int): seq<Match>
    requires |fs| == |es|
  {
    var n := if |es| < MaxExamined then |es| else MaxExamined;
    Take(Collect(MatchesOf(es, fs, start, end)[..n]), MaxMatches)
  }

  /** The scan of the listing: entries in order, at most twenty of them,
      stopping before the next entry once three matches are collected.
      `examined` counts the entries looked at. */
  method DiscoverMatches(es: seq<FlatEntry>, fs: seq<MetaFetch>, start: int, end: int)
    returns (matches: seq<Match>, examined: nat)
    requires |fs| == |es|
    ensures examined <= MaxExamined && examined <= |es|
    ensures matches == Collect(MatchesOf(es, fs, start, end)[..examined])
    ensures |matches| <= MaxMatches
    ensures examined < |es| && examined < MaxExamined ==> |matches| == MaxMatches
    ensures matches == Discovered(es, fs, start, end)
  {
    var n := if |es| < MaxExamined then |es| else MaxExamined;
    ghost var xs := MatchesOf(es, fs, start, end);
    matches := [];
    var i := 0;
    while i < n
      invariant 0 <= i <= n
      invariant matches == Collect(xs[..i])
      invariant |matches| <= MaxMatches
    {
      if |matches| >= MaxMatches {
        break;
      }
      matches := ExamineEntry(es, fs, start, end, i, xs, matches);
      i := i + 1;
    }
    examined := i;
    ScanEnd(xs, i, n, matches);
  }

  /** Once the scan stops at `i` (the limit `n` or three matches), what it
      holds is the first three matches among the first `n` entries. */
  lemma {:induction false} ScanEnd(xs: seq<Option<Match>>, i: nat, n: nat, matches: seq<Match>)
    requires i <= n <= |xs|
    requires matches == Collect(xs[..i])
    requires |matches| <= MaxMatches
    requires i < n ==> |matches| >= MaxMatches
    ensures matches == Take(Collect(xs[..n]), MaxMatches)
  {
    assert xs[..n] == xs[..i] + xs[i..n];
    CollectAppend(xs[..i], xs[i..n]);
    if i == n {
      assert xs[i..n] == [];
      assert Collect(xs[..n]) == matches;
    }
  }

  /** One pass of the first loop: entry `i` is added when it matches. */
  method ExamineEntry(es: seq<FlatEntry>, fs: seq<MetaFetch>, start: int, end: int,
                      i: nat, ghost xs: seq<Option<Match>>, done: seq<Match>)
    returns (matches: seq<Match>)
    requires |fs| == |es| && i < |es|
    requires xs == MatchesOf(es, fs, start, end)
    requires done == Collect(xs[..i])
    ensures matches == Collect(xs[..i + 1])
    ensures |matches| <= |done| + 1
  {
    CollectStep(xs, i);
    var m := MatchOf(es[i], fs[i], start, end);
    if m.Some? {
      return done + [m.value];
    }
    return done;
  }

  // ---------------------------------------------------------------------
  // One matched video

  datatype TranscriptOutcome = Transcribed(text: string) | TranscribeRaised(message: string)
  datatype SummaryOutcome = Summarized(text: string) | SummarizeRaised(message: string)

  /** One entry of the result list (`published_date` as its time). */
  datatype Podcast = Podcast(
    videoId: Option<string>,
    title: string,
    channel: string,
    url: string,
    published: int,
    duration: int,
    views: int,
    summary: string,
    transcript: string,
    keyTopics: seq<string>)

  /** `x or 0`. */
  function OrZero(x: Option<int>): int
  {
    if x.Some? then x.value else 0
  }

  /** `f"{video_id}"`, null printing as "None". */
  function IdText(id: Option<string>): string
  {
    if id.Some? then id.value else "None"
  }

  /** `webpage_url or url or <watch URL>`. */
  function VideoUrl(m: VideoMeta): string
  {
    if Truthy(m.webpageUrl) then m.webpageUrl.value
    else if Truthy(m.url) then m.url.value
    else WatchPrefix + IdText(m.id)
  }

  function TranscriptText(o: TranscriptOutcome): string
  {
    match o
    case Transcribed(text) => text
    case TranscribeRaised(message) => TranscriptErrorPrefix + message
  }

  function SummaryText(o: SummaryOutcome): string
  {
    match o
    case Summarized(text) => text
    case SummarizeRaised(message) => SummaryErrorPrefix + message
  }

  /** The transcript gate: non-empty, longer than 50 once stripped, and
      without "Error". */
  predicate TranscriptUsable(t: string)
  {
    t != "" && |Strip(t)| > 50 && !Contains(t, "Error")
  }

  predicate SummaryUsable(s: string)
  {
    s != "" && !Contains(s, "Error")
  }

  /** What becomes of one match: dropped when the transcript is the skip
      marker; otherwise a podcast whose transcript, summary and topics
      follow the two gates. The summary outcome is only read when the
      transcript passes its gate. */
  function VideoOutcome(m: Match, channel: string, tr: TranscriptOutcome, su: SummaryOutcome): Option<Podcast>
  {
    var t := TranscriptText(tr);
    if t == Subtitles.SkipNoEnglish then None
    else
      var base := Podcast(m.meta.id, m.title, channel, VideoUrl(m.meta), m.published,
        OrZero(m.meta.duration), OrZero(m.meta.viewCount), "", "", []);
      if TranscriptUsable(t) then
        var s := SummaryText(su);
        if SummaryUsable(s) then Some(base.(transcript := t, summary := s, keyTopics := Summarize.KeyTopics(t)))
        else Some(base.(transcript := t, summary := ApiErrorSummary, keyTopics := []))
      else
        Some(base.(transcript := if t != "" then t else TranscriptMissing, summary := NoTranscriptSummary, keyTopics := []))
  }

  /** What becomes of each match. */
  function Outcomes(ms: seq<Match>, channel: string, trs: seq<TranscriptOutcome>, sus: seq<SummaryOutcome>): (r: seq<Option<Podcast>>)
    requires |trs| >= |ms| && |sus| >= |ms|
    ensures |r| == |ms|
    ensures forall i :: 0 <= i < |ms| ==> r[i] == VideoOutcome(ms[i], channel, trs[i], sus[i])
  {
    seq(|ms|, i requires 0 <= i < |ms| => VideoOutcome(ms[i], channel, trs[i], sus[i]))
  }

  /** The podcasts made from the matches, in order. */
  function Processed(ms: seq<Match>, channel: string, trs: seq<TranscriptOutcome>, sus: seq<SummaryOutcome>): seq<Podcast>
    requires |trs| >= |ms| && |sus| >= |ms|
  {
    Collect(Outcomes(ms, channel, trs, sus))
  }

  /** The second loop: each match in turn, skipping the dropped ones. */
  method ProcessMatches(ms: seq<Match>, channel: string, trs: seq<TranscriptOutcome>, sus: seq<SummaryOutcome>)
    returns (podcasts: seq<Podcast>)
    requires |trs| >= |ms| && |sus| >= |ms|
    ensures podcasts == Processed(ms, channel, trs, sus)
  {
    ghost var xs := Outcomes(ms, channel, trs, sus);
    podcasts := [];
    for i := 0 to |ms|
      invariant podcasts == Collect(xs[..i])
    {
      podcasts := ProcessMatch(ms, channel, trs, sus, i, xs, podcasts);
    }
    assert xs[..|ms|] == xs;
  }

  /** One pass of the second loop: the podcast made from match `i` is added,
      unless the match is dropped. */
  method ProcessMatch(ms: seq<Match>, channel: string, trs: seq<TranscriptOutcome>, sus: seq<SummaryOutcome>,
                      i: nat, ghost xs: seq<Option<Podcast>>, done: seq<Podcast>)
    returns (podcasts: seq<Podcast>)
    requires |trs| >= |ms| && |sus| >= |ms| && i < |ms|
    requires xs == Outcomes(ms, channel, trs, sus)
    requires done == Collect(xs[..i])
    ensures podcasts == Collect(xs[..i + 1])
  {
    CollectStep(xs, i);
    var p := VideoOutcome(ms[i], channel, trs[i], sus[i]);
    if p.None? {
      return done;
    }
    podcasts := done + [p.value];
  }

  /** What `fetch_podcasts_from_channel` returns, given what yt-dlp and the
      two later steps report. */
  function ChannelPodcasts(channel: string, l: Listing, fs: seq<MetaFetch>, trs: seq<TranscriptOutcome>,
                           sus: seq<SummaryOutcome>, start: int, end: int): seq<Podcast>
    requires |fs| == |Entries(l)|
    requires |trs| >= MaxMatches && |sus| >= MaxMatches
  {
    var ms := Discovered(Entries(l), fs, start, end);
    Processed(ms, channel, trs, sus)
  }

  /** `fetch_podcasts_from_channel`: nothing when the listing fails or is
      empty or nothing matches; otherwise the processed matches. */
  method FetchPodcasts(channel: string, l: Listing, fs: seq<MetaFetch>, trs: seq<TranscriptOutcome>,
                       sus: seq<SummaryOutcome>, start: int, end: int)
    returns (podcasts: seq<Podcast>)
    requires |fs| == |Entries(l)|
    requires |trs| >= MaxMatches && |sus| >= MaxMatches
    ensures podcasts == ChannelPodcasts(channel, l, fs, trs, sus, start, end)
  {
    var es := Entries(l);
    if es == [] {
      return [];
    }
    var matches, _ := DiscoverMatches(es, fs, start, end);
    if matches == [] {
      return [];
    }
    podcasts := ProcessMatches(matches, channel, trs, sus);
  }

  // ---------------------------------------------------------------------
  // calculate_stats

  datatype PodcastStats = PodcastStats(totalPodcasts: nat, totalDuration: int, channelsAnalyzed: nat)

  function TotalDuration(ps: seq<Podcast>): int
  {
    if ps == [] then 0 else TotalDuration(ps[..|ps| - 1]) + ps[|ps| - 1].duration
  }

  function Channels(ps: seq<Podcast>): set<string>
  {
    set p | p in ps :: p.channel
  }

  function CalculateStats(ps: seq<Podcast>): PodcastStats
  {
    if ps == [] then PodcastStats(0, 0, 0)
    else PodcastStats(|ps|, TotalDuration(ps), |Channels(ps)|)
  }

  // ---------------------------------------------------------------------
  // Properties: the URL and the scan

  /** The rewritten URL is the given one without trailing slashes plus
      "/videos", exactly for handle and channel-id URLs. */
  lemma {:induction false} ChannelVideosUrlSpec(url: string)
    ensures var r := ChannelVideosUrl(url);
      && (Contains(url, "/@") || Contains(url, "/channel/") <==> r != url || (url == StripCharsEnd(url, {'/'}) + "/videos"))
      && (Contains(url, "/@") || Contains(url, "/channel/") ==>
            exists k :: 0 <= k <= |url| && r == url[..k] + "/videos" && (k == 0 || url[k - 1] != '/')
              && forall j :: k <= j < |url| ==> url[j] == '/')
  {
    if Contains(url, "/@") || Contains(url, "/channel/") {
      var base := StripCharsEnd(url, {'/'});
      assert base == url[..|base|];
    }
  }

  /** The scan keeps the first three matches among the first twenty
      entries: no more than three, each from one of those entries (one with
      an id whose metadata has a title and an upload time inside the week),
      as many as there are up to three, and every match found before three
      were collected, so all of them when fewer than three were found. */
  lemma {:induction false} DiscoveredSpec(es: seq<FlatEntry>, fs: seq<MetaFetch>, start: int, end: int)
    requires |fs| == |es|
    ensures var ms := Discovered(es, fs, start, end);
      var n := if |es| < MaxExamined then |es| else MaxExamined;
      var xs := MatchesOf(es, fs, start, end);
      && |ms| <= MaxMatches
      && |ms| == Min(MaxMatches, |Collect(xs[..n])|)
      && (forall m :: m in ms ==>
          && start <= m.published <= end
          && exists i :: 0 <= i < |es| && i < MaxExamined && fs[i] == Metadata(m.meta) && es[i].FlatEntry? && Truthy(es[i].id)
               && Truthy(m.meta.title) && m.title == m.meta.title.value
               && UploadDates.UploadTime(m.meta.uploadDate, m.meta.timestamp) == Some(m.published))
      && (forall i :: 0 <= i < n && MatchOf(es[i], fs[i], start, end).Some? && |Collect(xs[..i])| < MaxMatches ==>
            MatchOf(es[i], fs[i], start, end).value in ms)
      && (|ms| < MaxMatches ==> forall i :: 0 <= i < n && MatchOf(es[i], fs[i], start, end).Some? ==>
            MatchOf(es[i], fs[i], start, end).value in ms)
  {
    DiscoveredSound(es, fs, start, end);
    DiscoveredComplete(es, fs, start, end);
  }

  lemma {:induction false} DiscoveredSound(es: seq<FlatEntry>, fs: seq<MetaFetch>, start: int, end: int)
    requires |fs| == |es|
    ensures forall m :: m in Discovered(es, fs, start, end) ==>
          && start <= m.published <= end
          && exists i :: 0 <= i < |es| && i < MaxExamined && fs[i] == Metadata(m.meta) && es[i].FlatEntry? && Truthy(es[i].id)
               && Truthy(m.meta.title) && m.title == m.meta.title.value
               && UploadDates.UploadTime(m.meta.uploadDate, m.meta.timestamp) == Some(m.published)
  {
    var n := if |es| < MaxExamined then |es| else MaxExamined;
    var xs := MatchesOf(es, fs, start, end)[..n];
    CollectSources(xs);
    forall m | m in Discovered(es, fs, start, end)
      ensures start <= m.published <= end
      ensures exists i :: 0 <= i < |es| && i < MaxExamined && fs[i] == Metadata(m.meta) && es[i].FlatEntry? && Truthy(es[i].id)
               && Truthy(m.meta.title) && m.title == m.meta.title.value
               && UploadDates.UploadTime(m.meta.uploadDate, m.meta.timestamp) == Some(m.published)
    {
      assert m in Collect(xs);
      var i :| 0 <= i < n && xs[i] == Some(m);
      assert MatchOf(es[i], fs[i], start, end) == Some(m);
    }
  }

  lemma {:induction false} DiscoveredComplete(es: seq<FlatEntry>, fs: seq<MetaFetch>, start: int, end: int)
    requires |fs| == |es|
    ensures var ms := Discovered(es, fs, start, end);
      var n := if |es| < MaxExamined then |es| else MaxExamined;
      var xs := MatchesOf(es, fs, start, end);
      && |ms| == Min(MaxMatches, |Collect(xs[..n])|)
      && (forall i :: 0 <= i < n && MatchOf(es[i], fs[i], start, end).Some? && |Collect(xs[..i])| < MaxMatches ==>
            MatchOf(es[i], fs[i], start, end).value in ms)
      && (|ms| < MaxMatches ==> forall i :: 0 <= i < n && MatchOf(es[i], fs[i], start, end).Some? ==>
            MatchOf(es[i], fs[i], start, end).value in ms)
  {
    var n := if |es| < MaxExamined then |es| else MaxExamined;
    var all := MatchesOf(es, fs, start, end);
    var xs := all[..n];
    var ms := Discovered(es, fs, start, end);
    forall i | 0 <= i < n && MatchOf(es[i], fs[i], start, end).Some?
      ensures |Collect(all[..i])| < |Collect(xs)|
      ensures |Collect(all[..i])| < MaxMatches ==> MatchOf(es[i], fs[i], start, end).value in ms
    {
      assert xs[..i] == all[..i];
      CollectAt(xs, i);
      var k := |Collect(xs[..i])|;
      if k < MaxMatches {
        assert ms[k] == Collect(xs)[k];
      }
    }
  }

  /** A present element lands in the collection right after what its
      predecessors contributed. */
  lemma {:induction false} CollectAt<T>(xs: seq<Option<T>>, i: nat)
    requires i < |xs| && xs[i].Some?
    ensures |Collect(xs[..i])| < |Collect(xs)|
    ensures Collect(xs)[|Collect(xs[..i])|] == xs[i].value
  {
    assert xs == xs[..i + 1] + xs[i + 1..];
    CollectAppend(xs[..i + 1], xs[i + 1..]);
    CollectStep(xs, i);
  }

  /** A listing whose entries are all null but which has an `id` of its own
      is treated as that one video. */
  lemma {:induction false} SingleVideoListing(es: seq<Option<FlatEntry>>, id: Option<string>)
    requires forall e :: e in es ==> e.None?
    ensures Entries(Listing(es, Some(id))) == [FlatEntry(id)]
    ensures Entries(Listing(es, None)) == []
  {
    CollectOfNulls(es);
  }

  lemma {:induction false} CollectOfNulls<T>(es: seq<Option<T>>)
    requires forall e :: e in es ==> e.None?
    ensures Collect(es) == []
  {
    if es != [] {
      var n := |es| - 1;
      assert es[n] in es;
      assert forall e :: e in es[..n] ==> e in es;
      CollectOfNulls(es[..n]);
    }
  }

  // ---------------------------------------------------------------------
  // Properties: one video

  lemma {:induction false} NoErrorWithoutE(s: string)
    requires forall i :: 0 <= i < |s| ==> s[i] != 'E'
    ensures !Contains(s, "Error")
  {
    forall i | 0 <= i <= |s| ensures !OccursAt(s, "Error", i) {
      if i + 5 <= |s| {
        assert s[i..i + 5][0] == s[i];
      }
    }
  }

  lemma {:induction false} PlaceholdersWithoutError()
    ensures !Contains(NoTranscriptSummary, "Error")
    ensures !Contains(ApiErrorSummary, "Error")
  {
    NoErrorWithoutE(NoTranscriptSummary);
    NoErrorWithoutE(ApiErrorSummary);
  }

  /** The decision for one match: the skip marker drops it; a transcript
      failing its gate is kept (or replaced by "Transcript not available"
      when empty) with the no-transcript summary and no topics; a summary
      failing its gate becomes the API-error summary with no topics;
      otherwise transcript, summary and key topics are all stored. No stored
      summary ever contains "Error", and topics are only stored next to a
      provider summary. */
  lemma {:induction false} VideoOutcomeSpec(m: Match, channel: string, tr: TranscriptOutcome, su: SummaryOutcome)
    ensures var t := TranscriptText(tr);
      var s := SummaryText(su);
      var r := VideoOutcome(m, channel, tr, su);
      && (r.None? <==> t == Subtitles.SkipNoEnglish)
      && (r.Some? ==>
            && r.value.channel == channel && r.value.published == m.published && r.value.title == m.title
            && !Contains(r.value.summary, "Error")
            && (!TranscriptUsable(t) ==>
                  r.value.summary == NoTranscriptSummary && r.value.keyTopics == []
                  && r.value.transcript == (if t != "" then t else TranscriptMissing))
            && (TranscriptUsable(t) && !SummaryUsable(s) ==>
                  r.value.summary == ApiErrorSummary && r.value.keyTopics == [] && r.value.transcript == t)
            && (TranscriptUsable(t) && SummaryUsable(s) ==>
                  r.value.summary == s && r.value.transcript == t && r.value.keyTopics == Summarize.KeyTopics(t))
            && (r.value.keyTopics != [] ==> TranscriptUsable(t) && r.value.summary == s))
  {
    PlaceholdersWithoutError();
  }

  /** A raised transcription carries "Error", so it never reaches the
      summarizer; its message is stored as the transcript. */
  lemma {:induction false} RaisedTranscriptKept(m: Match, channel: string, message: string, su: SummaryOutcome)
    ensures VideoOutcome(m, channel, TranscribeRaised(message), su).Some?
    ensures VideoOutcome(m, channel, TranscribeRaised(message), su).value.transcript == TranscriptErrorPrefix + message
    ensures VideoOutcome(m, channel, TranscribeRaised(message), su).value.summary == NoTranscriptSummary
  {
    TranscriptErrorPrefixSplit();
    ContainsInfix("", "Error", " extracting transcript: " + message);
    assert TranscriptErrorPrefix + message == "" + "Error" + (" extracting transcript: " + message);
    assert (TranscriptErrorPrefix + message)[0] == 'E';
  }

  lemma {:induction false} TranscriptErrorPrefixSplit()
    ensures TranscriptErrorPrefix == "Error" + " extracting transcript: "
  {
  }

  lemma {:induction false} GeminiMessageSplit()
    ensures "Error: Rate limited after " == "Error" + ": Rate limited after "
  {
  }

  /** A transcript that passes the gate is long enough for the summarizer,
      so the summarizer's own too-short answer never reaches a podcast. */
  lemma {:induction false} GateImpliesLongEnough(t: string)
    requires TranscriptUsable(t)
    ensures !Summarize.TooShort(t)
  {
  }

  /** A rate-limited Gemini call during the pipeline stores the API-error
      summary, keeps the transcript and stores no topics. */
  lemma {:induction false} GeminiRateLimitInPipeline(m: Match, channel: string, t: string,
      settings: Summarize.SummarySettings, gemini: Summarize.ProviderCall, gpt: Summarize.ProviderCall)
    requires TranscriptUsable(t) && t != Subtitles.SkipNoEnglish
    requires settings.approach.None? && settings.apiKey != "" && settings.geminiInstalled
    requires gemini.CallRaised? && Summarize.IsQuotaError(gemini.message)
    ensures var r := VideoOutcome(m, channel, Transcribed(t), Summarized(Summarize.SummarizeTranscript(t, settings, gemini, gpt)));
      r.Some? && r.value.summary == ApiErrorSummary && r.value.transcript == t && r.value.keyTopics == []
  {
    GateImpliesLongEnough(t);
    Summarize.SummarizeDispatch(t, settings, gemini, gpt);
    Summarize.GeminiOutcome(t, settings.apiKey, settings.geminiInstalled, gemini);
    GeminiMessageHasError();
  }

  lemma {:induction false} GeminiMessageHasError()
    ensures Contains(Summarize.GeminiRateLimitedMessage, "Error")
  {
    GeminiMessageSplit();
    var rest := ": Rate limited after " + NatToString(Summarize.GeminiMaxRetries) + " attempts during summarization. Please try again later.";
    ContainsInfix("", "Error", rest);
    assert Summarize.GeminiRateLimitedMessage == "" + "Error" + rest;
  }

  /** A video whose metadata has no English subtitle track is dropped from
      the results, whatever its summary would have been. */
  lemma {:induction false} NoEnglishDropped(m: Match, channel: string, videoUrl: string,
      info: Subtitles.VideoInfo, download: Subtitles.Download, whisper: string, su: SummaryOutcome)
    requires Subtitles.ChooseTrack(info).None?
    ensures var t := Subtitles.TranscribeVideo(None, Subtitles.TranscribeWithYoutube(true, videoUrl, Subtitles.Extracted(info), download), whisper);
      VideoOutcome(m, channel, Transcribed(t), su).None?
  {
    Subtitles.SkipOutcome(true, videoUrl, Subtitles.Extracted(info), download);
  }

  // ---------------------------------------------------------------------
  // Properties: a channel

  /** Every podcast comes from a match, in order, and carries the match's
      time and title. */
  lemma {:induction false} ProcessedSources(ms: seq<Match>, channel: string, trs: seq<TranscriptOutcome>, sus: seq<SummaryOutcome>)
    requires |trs| >= |ms| && |sus| >= |ms|
    ensures |Processed(ms, channel, trs, sus)| <= |ms|
    ensures forall p :: p in Processed(ms, channel, trs, sus) ==>
      p.channel == channel && !Contains(p.summary, "Error") && exists m :: m in ms && p.published == m.published && p.title == m.title
  {
    var xs := Outcomes(ms, channel, trs, sus);
    CollectSources(xs);
    forall p | p in Processed(ms, channel, trs, sus)
      ensures p.channel == channel && !Contains(p.summary, "Error")
      ensures exists m :: m in ms && p.published == m.published && p.title == m.title
    {
      var i :| 0 <= i < |xs| && xs[i] == Some(p);
      VideoOutcomeSpec(ms[i], channel, trs[i], sus[i]);
    }
  }

  /** A channel contributes at most three podcasts, all under its name,
      all published inside the week, none with "Error" in its summary. */
  lemma {:induction false} ChannelPodcastsSpec(channel: string, l: Listing, fs: seq<MetaFetch>, trs: seq<TranscriptOutcome>,
                                               sus: seq<SummaryOutcome>, start: int, end: int)
    requires |fs| == |Entries(l)|
    requires |trs| >= MaxMatches && |sus| >= MaxMatches
    ensures var ps := ChannelPodcasts(channel, l, fs, trs, sus, start, end);
      && |ps| <= MaxMatches
      && (forall p :: p in ps ==> p.channel == channel && start <= p.published <= end && !Contains(p.summary, "Error"))
      && (l.ListingRaised? || l.NoListing? ==> ps == [])
  {
    var ms := Discovered(Entries(l), fs, start, end);
    DiscoveredSpec(Entries(l), fs, start, end);
    ProcessedSources(ms, channel, trs, sus);
  }

  // ---------------------------------------------------------------------
  // Properties: the counters

  lemma {:induction false} ChannelsBound(ps: seq<Podcast>)
    ensures |Channels(ps)| <= |ps|
  {
    if ps != [] {
      var init := ps[..|ps| - 1];
      ChannelsBound(init);
      assert ps == init + [ps[|ps| - 1]];
      assert Channels(ps) == Channels(init) + {ps[|ps| - 1].channel};
    }
  }

  lemma {:induction false} TotalDurationAppend(a: seq<Podcast>, b: seq<Podcast>)
    ensures TotalDuration(a + b) == TotalDuration(a) + TotalDuration(b)
    decreases |b|
  {
    if b == [] {
      assert a + b == a;
    } else {
      var b' := b[..|b| - 1];
      assert (a + b)[..|a + b| - 1] == a + b';
      TotalDurationAppend(a, b');
    }
  }

  /** The counters: all zero without podcasts; otherwise the number of
      podcasts, their total duration and the number of distinct channels,
      which is at least one and at most the number of podcasts. Counters of
      two lists put together add up, except that a channel in both counts
      once. */
  lemma {:induction false} CalculateStatsSpec(a: seq<Podcast>, b: seq<Podcast>)
    ensures CalculateStats([]) == PodcastStats(0, 0, 0)
    ensures a != [] ==> 1 <= CalculateStats(a).channelsAnalyzed <= CalculateStats(a).totalPodcasts == |a|
    ensures a != [] && b != [] ==>
      && CalculateStats(a + b).totalPodcasts == CalculateStats(a).totalPodcasts + CalculateStats(b).totalPodcasts
      && CalculateStats(a + b).totalDuration == CalculateStats(a).totalDuration + CalculateStats(b).totalDuration
      && CalculateStats(a + b).channelsAnalyzed <= CalculateStats(a).channelsAnalyzed + CalculateStats(b).channelsAnalyzed
  {
    ChannelsBound(a);
    if a != [] {
      assert a[0] in a;
      assert a[0].channel in Channels(a);
    }
    if a != [] && b != [] {
      TotalDurationAppend(a, b);
      assert Channels(a + b) == Channels(a) + Channels(b);
    }
  }

  /** One channel's podcasts count as one channel. */
  lemma {:induction false} SingleChannelStats(ps: seq<Podcast>, channel: string)
    requires ps != []
    requires forall p :: p in ps ==> p.channel == channel
    ensures CalculateStats(ps).channelsAnalyzed == 1
  {
    assert ps[0] in ps;
    assert Channels(ps) == {channel};
  }
}
